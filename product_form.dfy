/**
 * The admin product form: the size toggle, the price text shown for a
 * loaded product and read back on save, the required-field guard, and the
 * choice between updating an existing product and inserting a new one.
 */
module ProductForm {
  import opened Types
  import Filtering

  /** The size buttons the form offers. */
  const SizeChoices: seq<string> := ["XS", "S", "M", "L", "XL", "XXL"]
  /** The selection of a new product, and of a loaded one whose sizes are missing. */
  const DefaultSizes: seq<string> := ["S", "M", "L", "XL"]

  // ---------------------------------------------------------------------
  // Size selection

  function Other(size: string): string -> bool
  {
    (s: string) => s != size
  }

  /**
   * The list without any occurrence of `size`: every other size is kept as
   * often as it occurs, in its order.
   */
  function RemoveAll(sizes: seq<string>, size: string): (kept: seq<string>)
    ensures forall s :: multiset(kept)[s] == if s != size then multiset(sizes)[s] else 0
    ensures Filtering.IsSubsequence(kept, sizes)
    ensures forall s :: s in kept <==> s in sizes && s != size
    ensures |kept| <= |sizes|
  {
    Filtering.FilterCount(sizes, Other(size));
    Filtering.FilterIsSubsequence(sizes, Other(size));
    var kept := Filtering.Filter(sizes, Other(size));
    assert forall s :: s in kept <==> multiset(kept)[s] > 0;
    assert forall s :: s in sizes <==> multiset(sizes)[s] > 0;
    kept
  }

  /** A selected size is dropped (every occurrence), an unselected one appended. */
  function ToggleSize(selected: seq<string>, size: string): (toggled: seq<string>)
    ensures size in toggled <==> size !in selected
    ensures size !in selected ==> toggled == selected + [size]
    ensures RemoveAll(toggled, size) == RemoveAll(selected, size)
  {
    if size in selected then
      Filtering.FilterIdempotent(selected, Other(size));
      RemoveAll(selected, size)
    else
      RemoveAllAppended(selected, size);
      RemoveAllAbsent(selected, size);
      selected + [size]
  }

  lemma RemoveAllAbsent(sizes: seq<string>, size: string)
    requires size !in sizes
    ensures RemoveAll(sizes, size) == sizes
  {
    Filtering.FilterKeepsAll(sizes, Other(size));
  }

  lemma RemoveAllAppended(sizes: seq<string>, size: string)
    ensures RemoveAll(sizes + [size], size) == RemoveAll(sizes, size)
  {
    Filtering.FilterAppend(sizes, [size], Other(size));
    assert Filtering.Filter([size], Other(size)) == [];
    assert Filtering.Filter(sizes, Other(size)) + [] == Filtering.Filter(sizes, Other(size));
  }

  /** Toggling an unselected size twice gives back the original selection. */
  lemma ToggleTwiceRestores(selected: seq<string>, size: string)
    requires size !in selected
    ensures ToggleSize(ToggleSize(selected, size), size) == selected
  {
    RemoveAllAppended(selected, size);
    RemoveAllAbsent(selected, size);
  }

  predicate Distinct(sizes: seq<string>)
  {
    forall i, j :: 0 <= i < j < |sizes| ==> sizes[i] != sizes[j]
  }

  lemma {:induction false} RemoveAllDistinct(sizes: seq<string>, size: string)
    requires Distinct(sizes)
    ensures Distinct(RemoveAll(sizes, size))
  {
    if sizes != [] {
      assert Distinct(sizes[1..]) by {
        forall i, j | 0 <= i < j < |sizes[1..]| ensures sizes[1..][i] != sizes[1..][j] {
          assert sizes[1..][i] == sizes[i + 1] && sizes[1..][j] == sizes[j + 1];
        }
      }
      RemoveAllDistinct(sizes[1..], size);
      var rest := RemoveAll(sizes[1..], size);
      if sizes[0] != size {
        assert sizes[0] !in sizes[1..];
        assert sizes[0] !in rest;
        var kept := [sizes[0]] + rest;
        assert RemoveAll(sizes, size) == kept;
        forall i, j | 0 <= i < j < |kept| ensures kept[i] != kept[j] {
          if i == 0 {
            assert kept[j] == rest[j - 1];
          } else {
            assert kept[i] == rest[i - 1] && kept[j] == rest[j - 1];
          }
        }
      } else {
        assert RemoveAll(sizes, size) == rest;
      }
    }
  }

  /** A selection without repeats keeps having none after a toggle. */
  lemma ToggleKeepsDistinct(selected: seq<string>, size: string)
    requires Distinct(selected)
    ensures Distinct(ToggleSize(selected, size))
  {
    if size in selected {
      RemoveAllDistinct(selected, size);
    } else {
      var toggled := selected + [size];
      forall i, j | 0 <= i < j < |toggled| ensures toggled[i] != toggled[j] {
        if j == |selected| {
          assert toggled[i] == selected[i];
        } else {
          assert toggled[i] == selected[i] && toggled[j] == selected[j];
        }
      }
    }
  }

  lemma DefaultSizesOffered()
    ensures Distinct(DefaultSizes) && Distinct(SizeChoices)
    ensures forall s :: s in DefaultSizes ==> s in SizeChoices
  {
  }

  // ---------------------------------------------------------------------
  // Price text

  function DigitChar(d: nat): char
    requires d < 10
  {
    ('0' as int + d) as char
  }

  predicate IsDigit(c: char)
  {
    '0' <= c <= '9'
  }

  predicate AllDigits(text: string)
  {
    forall i :: 0 <= i < |text| ==> IsDigit(text[i])
  }

  /** The decimal digits of a whole number, most significant first. */
  function NatText(n: nat): (text: string)
    ensures text != [] && AllDigits(text)
    ensures |text| > 1 ==> text[0] != '0'
  {
    if n < 10 then [DigitChar(n)] else NatText(n / 10) + [DigitChar(n % 10)]
  }

  /** `toString` of a whole-rupee price. */
  function PriceText(price: int): (text: string)
    ensures price >= 0 ==> text != "" && AllDigits(text)
    ensures price < 0 ==> |text| > 1 && text[0] == '-' && AllDigits(text[1..])
    ensures price >= 0 ==> |text| == 1 || text[0] != '0'
    ensures price < 0 ==> text[1] != '0'
  {
    if price < 0 then "-" + NatText(-price) else NatText(price)
  }

  function DigitsValue(text: string): nat
    requires AllDigits(text)
  {
    if text == [] then 0
    else DigitsValue(text[..|text| - 1]) * 10 + (text[|text| - 1] as int - '0' as int)
  }

  /**
   * `parseFloat` on price text made of an optional minus sign and decimal
   * digits. Any other text yields None.
   */
  function ParsePrice(text: string): (price: Option<int>)
    ensures text == "" || text == "-" ==> price.None?
    ensures text != "" && AllDigits(text) ==> price == Some(DigitsValue(text)) && price.value >= 0
    ensures |text| > 1 && text[0] == '-' && AllDigits(text[1..]) ==> price == Some(-(DigitsValue(text[1..]) as int))
    ensures price.Some? && price.value < 0 ==> text[0] == '-'
    ensures (exists i :: 0 <= i < |text| && !IsDigit(text[i]) && (i > 0 || text[i] != '-')) ==> price.None?
  {
    if |text| > 1 && text[0] == '-' && AllDigits(text[1..]) then
      var magnitude: int := DigitsValue(text[1..]);
      Some(-magnitude)
    else if text != "" && AllDigits(text) then Some(DigitsValue(text))
    else None
  }

  lemma {:induction false} NatTextValue(n: nat)
    ensures DigitsValue(NatText(n)) == n
  {
    if n >= 10 {
      NatTextValue(n / 10);
      var text := NatText(n);
      assert text[..|text| - 1] == NatText(n / 10);
    }
  }

  /** A loaded price, shown as text and read back on save, is the same price. */
  lemma PriceRoundTrip(price: int)
    ensures ParsePrice(PriceText(price)) == Some(price)
  {
    if price < 0 {
      NatTextValue(-price);
      assert PriceText(price)[1..] == NatText(-price);
    } else {
      NatTextValue(price);
    }
  }

  // ---------------------------------------------------------------------
  // The form

  /** Name, price and at least one size are required; description and image are not. */
  function MissingRequiredField(name: string, price: string, sizes: seq<string>): (missing: bool)
    ensures missing <==> "" in [name, price] || sizes == []
  {
    name == "" || price == "" || |sizes| == 0
  }

  /** The fields written to the products table. */
  datatype ProductData = ProductData(
    name: string,
    description: string,
    price: Option<int>,
    sizes: seq<string>,
    inStock: bool,
    imageUrl: Option<string>)

  datatype SaveRequest = UpdateProduct(id: string, data: ProductData) | InsertProduct(data: ProductData)

  /** Editing when the route names a product, creating otherwise. */
  function SaveRequestFor(routeId: Option<string>, data: ProductData): (request: SaveRequest)
    ensures request.UpdateProduct? <==> Present(routeId)
    ensures request.UpdateProduct? ==> request.id == routeId.value
    ensures request.data == data
  {
    if Present(routeId) then UpdateProduct(routeId.value, data) else InsertProduct(data)
  }

  datatype SaveOutcome = Invalid | SaveFailed | Saved

  datatype TextField = Name | Description | Price

  class Form {
    const routeId: Option<string>
    var loading: bool
    var saving: bool
    var uploading: bool
    var name: string
    var description: string
    var price: string
    var selectedSizes: seq<string>
    var inStock: bool
    var imageUrl: string
    /** Every insert or update sent to the products table. */
    var requests: seq<SaveRequest>

    constructor (routeId: Option<string>)
      ensures this.routeId == routeId
      ensures loading == Present(routeId) && !saving && !uploading
      ensures name == "" && description == "" && price == "" && imageUrl == ""
      ensures selectedSizes == DefaultSizes && inStock
      ensures requests == []
    {
      this.routeId := routeId;
      loading := Present(routeId);
      saving, uploading := false, false;
      name, description, price, imageUrl := "", "", "", "";
      selectedSizes := DefaultSizes;
      inStock := true;
      requests := [];
    }

    /** The record a save writes: an empty image URL is sent as null. */
    function Data(): (data: ProductData)
      reads this
      ensures data.name == name && data.description == description && data.inStock == inStock
      ensures data.sizes == selectedSizes && data.price == ParsePrice(price)
      ensures data.imageUrl.None? <==> imageUrl == ""
      ensures imageUrl != "" ==> data.imageUrl == Some(imageUrl)
    {
      ProductData(name, description, ParsePrice(price), selectedSizes, inStock,
        if imageUrl == "" then None else Some(imageUrl))
    }

    /** Filling the form from the product being edited. */
    method Load(row: Option<Product>)
      modifies this
      ensures !loading
      ensures row.None? ==>
        name == old(name) && description == old(description) && price == old(price)
        && selectedSizes == old(selectedSizes) && inStock == old(inStock) && imageUrl == old(imageUrl)
      ensures row.Some? ==>
        var p := row.value;
        && name == p.name
        && description == TextOr(p.description, "")
        && price == PriceText(p.price)
        && selectedSizes == (if p.sizes.Some? then p.sizes.value else DefaultSizes)
        && inStock == p.inStock
        && imageUrl == TextOr(p.imageUrl, "")
      ensures row.Some? ==> price != "" && Data().price == Some(row.value.price)
      ensures saving == old(saving) && uploading == old(uploading) && requests == old(requests)
    {
      if row.Some? {
        var p := row.value;
        name := p.name;
        description := TextOr(p.description, "");
        price := PriceText(p.price);
        selectedSizes := if p.sizes.Some? then p.sizes.value else DefaultSizes;
        inStock := p.inStock;
        imageUrl := TextOr(p.imageUrl, "");
        PriceRoundTrip(p.price);
      }
      loading := false;
    }

    method Edit(field: TextField, value: string)
      modifies this
      ensures field == Name ==> name == value && description == old(description) && price == old(price)
      ensures field == Description ==> description == value && name == old(name) && price == old(price)
      ensures field == Price ==> price == value && name == old(name) && description == old(description)
      ensures selectedSizes == old(selectedSizes) && inStock == old(inStock) && imageUrl == old(imageUrl)
      ensures loading == old(loading) && saving == old(saving) && uploading == old(uploading)
      ensures requests == old(requests)
    {
      match field
      case Name => name := value;
      case Description => description := value;
      case Price => price := value;
    }

    method SetInStock(value: bool)
      modifies this
      ensures inStock == value
      ensures name == old(name) && description == old(description) && price == old(price)
      ensures selectedSizes == old(selectedSizes) && imageUrl == old(imageUrl)
      ensures loading == old(loading) && saving == old(saving) && uploading == old(uploading)
      ensures requests == old(requests)
    {
      inStock := value;
    }

    /** A size button: selected sizes are dropped, others appended. */
    method ToggleSizeButton(size: string)
      modifies this
      ensures selectedSizes == ToggleSize(old(selectedSizes), size)
      ensures name == old(name) && description == old(description) && price == old(price)
      ensures inStock == old(inStock) && imageUrl == old(imageUrl)
      ensures loading == old(loading) && saving == old(saving) && uploading == old(uploading)
      ensures requests == old(requests)
    {
      selectedSizes := ToggleSize(selectedSizes, size);
    }

    /**
     * Uploading an image: nothing happens without a file or for a non-image
     * file; a successful upload sets the image URL to the stored file's
     * public URL, a failed one leaves it.
     */
    method UploadImage(picked: bool, isImage: bool, uploadOk: bool, publicUrl: string)
      modifies this
      ensures imageUrl == (if picked && isImage && uploadOk then publicUrl else old(imageUrl))
      ensures uploading == (if picked && isImage then false else old(uploading))
      ensures name == old(name) && description == old(description) && price == old(price)
      ensures selectedSizes == old(selectedSizes) && inStock == old(inStock)
      ensures loading == old(loading) && saving == old(saving) && requests == old(requests)
    {
      if !picked || !isImage {
        return;
      }
      uploading := true;
      if uploadOk {
        imageUrl := publicUrl;
      }
      uploading := false;
    }

    /** The remove button on the image preview: the form no longer has an image. */
    method ClearImage()
      modifies this
      ensures imageUrl == "" && Data().imageUrl.None?
      ensures name == old(name) && description == old(description) && price == old(price)
      ensures selectedSizes == old(selectedSizes) && inStock == old(inStock)
      ensures loading == old(loading) && saving == old(saving) && uploading == old(uploading)
      ensures requests == old(requests)
    {
      imageUrl := "";
    }

    /**
     * Saving. With a required field missing nothing is sent; otherwise one
     * update (editing) or insert (creating), whose outcome is `remoteOk`.
     */
    method Submit(remoteOk: bool) returns (outcome: SaveOutcome)
      modifies this
      ensures outcome == Invalid <==> MissingRequiredField(name, price, selectedSizes)
      ensures outcome == Invalid ==> unchanged(this)
      ensures outcome != Invalid ==>
        && requests == old(requests) + [SaveRequestFor(routeId, Data())]
        && !saving
      ensures outcome == Saved <==> outcome != Invalid && remoteOk
      ensures name == old(name) && description == old(description) && price == old(price)
      ensures selectedSizes == old(selectedSizes) && inStock == old(inStock) && imageUrl == old(imageUrl)
      ensures loading == old(loading) && uploading == old(uploading)
    {
      if MissingRequiredField(name, price, selectedSizes) {
        return Invalid;
      }
      saving := true;
      requests := requests + [SaveRequestFor(routeId, Data())];
      outcome := if remoteOk then Saved else SaveFailed;
      saving := false;
    }
  }
}
