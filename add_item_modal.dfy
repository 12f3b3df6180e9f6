/**
 * The add-item dialog: the form state its inputs edit, the SKU it generates when the
 * SKU field is left empty, and the item it hands to `onSave` on submit. The random draw
 * of `Math.random()` and the outcome of the image upload are parameters.
 */
module AddItemModal {
  import opened Js
  import opened JsText

  /** A file chosen in the image input, by its name. */
  datatype File = File(fileName: string)

  /** The text inputs of the form, by their `name` attribute. */
  datatype Input = Name | Category | Sku | Price | CostPrice | Quantity | LowStockThreshold

  /** `formData`: every text input holds a string; the image input holds the chosen file. */
  datatype Form = Form(
    name: string, category: string, sku: string, price: string, costPrice: string,
    quantity: string, lowStockThreshold: string, imageFile: Option<File>, imageUrl: string)

  /** The item `handleSubmit` builds: numbers are parsed, so an unparsable field is NaN. */
  datatype NewItem = NewItem(
    name: string, category: string, sku: string, price: Value, costPrice: Value,
    quantity: Value, lowStockThreshold: Value, imageUrl: string)

  /** `initialState`: every field empty except the threshold, which starts at '5'. */
  function InitialForm(): Form
  {
    Form("", "", "", "", "", "", "5", None, "")
  }

  /** The value a text input shows. */
  function InputValue(f: Form, input: Input): string
  {
    match input
    case Name => f.name
    case Category => f.category
    case Sku => f.sku
    case Price => f.price
    case CostPrice => f.costPrice
    case Quantity => f.quantity
    case LowStockThreshold => f.lowStockThreshold
  }

  /** `{ ...formData, [name]: value }`: the edited input takes the value, nothing else changes. */
  function WithInput(f: Form, input: Input, value: string): (r: Form)
    ensures InputValue(r, input) == value
    ensures forall other :: other != input ==> InputValue(r, other) == InputValue(f, other)
    ensures r.imageFile == f.imageFile && r.imageUrl == f.imageUrl
  {
    match input
    case Name => f.(name := value)
    case Category => f.(category := value)
    case Sku => f.(sku := value)
    case Price => f.(price := value)
    case CostPrice => f.(costPrice := value)
    case Quantity => f.(quantity := value)
    case LowStockThreshold => f.(lowStockThreshold := value)
  }

  /** `Math.floor(1000 + draw * 9000)`. */
  function SkuNumber(draw: real): int
  {
    (1000.0 + draw * 9000.0).Floor
  }

  /** The first part of a generated SKU: 'ITM' for an empty category, else its first three characters uppercased. */
  function SkuPrefix(category: string): string
  {
    if category != "" then ToUpper(Take(category, 3)) else "ITM"
  }

  /** The middle part of a generated SKU: the first three characters of the name, uppercased. */
  function NameComponent(name: string): string
  {
    ToUpper(Take(name, 3))
  }

  /** `generateSKU(name, category)` for the random draw `draw`. */
  function GenerateSku(name: string, category: string, draw: real): string
  {
    SkuPrefix(category) + "-" + NameComponent(name) + "-" + SkuDigits(draw)
  }

  /** `formData.sku || generateSKU(formData.name, formData.category)`. */
  function ChosenSku(sku: string, name: string, category: string, draw: real): (r: string)
    ensures sku != "" ==> r == sku
    ensures sku == "" ==> r == GenerateSku(name, category, draw) && r != ""
  {
    if sku != "" then sku else GenerateSku(name, category, draw)
  }

  /** The `newItem` of `handleSubmit`, with the uploaded image's address (or ''). */
  function BuildItem(f: Form, imageUrl: string, draw: real): NewItem
  {
    NewItem(
      f.name, f.category, ChosenSku(f.sku, f.name, f.category, draw),
      ParseFloatValue(Str(f.price)), ParseFloatValue(Str(f.costPrice)),
      ParseIntValue(Str(f.quantity)), ParseIntValue(Str(f.lowStockThreshold)), imageUrl)
  }

  class AddItemDialog {
    var form: Form
    var isUploading: bool

    /** The dialog starts with the initial form and no upload running. */
    constructor()
      ensures form == InitialForm() && !isUploading
    {
      form := InitialForm();
      isUploading := false;
    }

    /** `handleChange` for a text input. */
    method HandleChange(input: Input, value: string)
      modifies this`form
      ensures form == WithInput(old(form), input, value)
    {
      form := WithInput(form, input, value);
    }

    /** `handleChange` for the image input: the first chosen file, or none. */
    method HandleFile(file: Option<File>)
      modifies this`form
      ensures form == old(form).(imageFile := file)
    {
      form := form.(imageFile := file);
    }

    /**
     * `handleSubmit`: with a file chosen, the upload runs first (`uploaded` is its address,
     * `None` when it throws). A failed upload leaves the form as it was and saves nothing;
     * otherwise the built item goes to `onSave` and the form resets.
     */
    method HandleSubmit(uploaded: Option<string>, draw: real) returns (saved: Option<NewItem>)
      modifies this`form, this`isUploading
      ensures old(form).imageFile.Some? ==> !isUploading
      ensures old(form).imageFile.None? ==> isUploading == old(isUploading)
      ensures old(form).imageFile.Some? && uploaded.None? ==> saved.None? && form == old(form)
      ensures old(form).imageFile.None? ==> saved == Some(BuildItem(old(form), "", draw)) && form == InitialForm()
      ensures old(form).imageFile.Some? && uploaded.Some? ==>
        saved == Some(BuildItem(old(form), uploaded.value, draw)) && form == InitialForm()
    {
      var imageUrl := "";
      if form.imageFile.Some? {
        isUploading := true;
        if uploaded.None? {
          isUploading := false;
          return None;
        }
        imageUrl := uploaded.value;
        isUploading := false;
      }
      saved := Some(BuildItem(form, imageUrl, draw));
      form := InitialForm();
    }
  }

  // ---------------------------------------------------------------------------
  // Facts about the generated SKU and the built item.

  /** No letter a to z: what `toUpperCase` leaves of ASCII text. */
  predicate NoLowerCase(s: string)
  {
    forall i :: 0 <= i < |s| ==> !('a' <= s[i] <= 'z')
  }

  /** Both generated parts are at most three characters long and carry no lower-case letter. */
  lemma SkuPartsSpec(name: string, category: string)
    ensures category == "" ==> SkuPrefix(category) == "ITM"
    ensures category != "" ==> (|SkuPrefix(category)| == (if |category| < 3 then |category| else 3)
      && forall i :: 0 <= i < |SkuPrefix(category)| ==> SkuPrefix(category)[i] == UpperChar(category[i]))
    ensures |NameComponent(name)| == (if |name| < 3 then |name| else 3)
    ensures forall i :: 0 <= i < |NameComponent(name)| ==> NameComponent(name)[i] == UpperChar(name[i])
    ensures NoLowerCase(SkuPrefix(category)) && NoLowerCase(NameComponent(name))
  {
  }

  /** A draw in [0, 1) gives a four-digit number, 1000 to 9999. */
  lemma SkuNumberRange(draw: real)
    requires 0.0 <= draw < 1.0
    ensures 1000 <= SkuNumber(draw) <= 9999
  {
    var x := 1000.0 + draw * 9000.0;
    assert 1000.0 <= x < 10000.0;
    assert x.Floor as real <= x < x.Floor as real + 1.0;
  }

  /** The decimal form of a number from 1000 to 9999 has four digits. */
  lemma FourDigits(n: int)
    requires 1000 <= n <= 9999
    ensures |IntToString(n)| == 4
  {
    assert |NatToString(n / 1000)| == 1;
    assert n / 100 / 10 == n / 1000;
    assert |NatToString(n / 100)| == 2;
    assert n / 10 / 10 == n / 100;
    assert |NatToString(n / 10)| == 3;
  }

  /** `sku` is `p`, a dash, `c`, a dash and `d`, where `d` is four characters long. */
  predicate DashedOf(sku: string, p: string, c: string, d: string)
  {
    && |d| == 4
    && |sku| == |p| + |c| + 6
    && sku[..|p|] == p && sku[|p|] == '-'
    && sku[|p| + 1..|p| + 1 + |c|] == c && sku[|p| + 1 + |c|] == '-'
    && sku[|sku| - 4..] == d
  }

  /** Where the parts of `p-c-d` sit, for a four-character `d`. */
  lemma DashedLayout(p: string, c: string, d: string)
    requires |d| == 4
    ensures DashedOf(p + "-" + c + "-" + d, p, c, d)
  {
    var s := p + "-" + c + "-" + d;
    assert s == p + ("-" + c + "-" + d);
    assert s == (p + "-" + c) + ("-" + d);
  }

  /** The decimal form of a non-negative number is all digits and reads back as the number. */
  lemma IntToStringReadsBack(n: int)
    requires n >= 0
    ensures AllDigits(IntToString(n)) && ParseIntText(IntToString(n)) == Some(n)
  {
    ParseIntOfDigits(NatToString(n));
  }

  /** The number at the end of a generated SKU. */
  function SkuDigits(draw: real): string
  {
    IntToString(SkuNumber(draw))
  }

  /** A draw in [0, 1) is written as four digits that read back as the drawn number. */
  lemma SkuDigitsSpec(draw: real)
    requires 0.0 <= draw < 1.0
    ensures |SkuDigits(draw)| == 4 && AllDigits(SkuDigits(draw))
    ensures ParseIntText(SkuDigits(draw)) == Some(SkuNumber(draw))
  {
    SkuNumberRange(draw);
    FourDigits(SkuNumber(draw));
    IntToStringReadsBack(SkuNumber(draw));
  }

  /**
   * A generated SKU is the prefix, a dash, the name component, a dash and the four
   * digits of the drawn number.
   */
  lemma GeneratedSkuShape(name: string, category: string, draw: real)
    requires 0.0 <= draw < 1.0
    ensures DashedOf(GenerateSku(name, category, draw), SkuPrefix(category), NameComponent(name), SkuDigits(draw))
  {
    var p, c, d := SkuPrefix(category), NameComponent(name), SkuDigits(draw);
    SkuDigitsSpec(draw);
    DashedLayout(p, c, d);
    assert GenerateSku(name, category, draw) == p + "-" + c + "-" + d;
  }

  /** `parseInt('5')` is 5. */
  lemma ParseFive()
    ensures ParseIntValue(Str("5")) == Num(5.0)
  {
    assert DigitValue('5') == 5;
    assert DigitsValue("5") == 5;
    ParseIntOfDigits("5");
  }

  /** Left at its initial '5', the threshold is submitted as the number 5. */
  lemma DefaultThresholdIsFive(f: Form, imageUrl: string, draw: real)
    requires f.lowStockThreshold == InitialForm().lowStockThreshold
    ensures BuildItem(f, imageUrl, draw).lowStockThreshold == Num(5.0)
  {
    ParseFive();
  }

  /** `parseFloat('')` and `parseInt('')` are NaN. */
  lemma ParseBlank()
    ensures ParseFloatValue(Str("")) == NaN && ParseIntValue(Str("")) == NaN
  {
    assert TrimStart("") == "" && LeadingDigits("") == "";
  }

  /** A number field left empty is submitted as NaN. */
  lemma BlankNumbersAreNaN(f: Form, imageUrl: string, draw: real)
    ensures f.price == "" ==> BuildItem(f, imageUrl, draw).price == NaN
    ensures f.costPrice == "" ==> BuildItem(f, imageUrl, draw).costPrice == NaN
    ensures f.quantity == "" ==> BuildItem(f, imageUrl, draw).quantity == NaN
    ensures f.lowStockThreshold == "" ==> BuildItem(f, imageUrl, draw).lowStockThreshold == NaN
  {
    ParseBlank();
  }

  /** A number field holding only digits is submitted as the number they denote. */
  lemma DigitNumbers(f: Form, imageUrl: string, draw: real)
    requires f.price != "" && AllDigits(f.price)
    requires f.quantity != "" && AllDigits(f.quantity)
    ensures BuildItem(f, imageUrl, draw).price == Num(DigitsValue(f.price) as real)
    ensures BuildItem(f, imageUrl, draw).quantity == Num(DigitsValue(f.quantity) as real)
  {
    ParseFloatOfDigits(f.price);
    ParseIntOfDigits(f.quantity);
  }
}
