/** The admin panel's two input guards, checked before any request is sent:
    the new-product form and the shop-name form. */
module AdminForms {
  import Search

  /** A guard either lets the submission through with its value or raises an alert. */
  datatype Outcome<T> = Proceed(value: T) | Alert(message: string)

  const MissingFieldsMessage: string := "Please fill in all the required fields."
  const MissingNameMessage: string := "Please enter a new name."

  /** The add-product form. `hasImage` says whether an image file is chosen; name, price
      and description are the raw text of their inputs. */
  datatype ProductForm = ProductForm(hasImage: bool, name: string, price: string, description: string)

  /** `addProduct`'s guard: image, name and price are required. */
  function CheckNewProduct(form: ProductForm): (r: Outcome<ProductForm>)
    ensures r.Proceed? ==> r.value == form
    ensures r.Alert? ==> r.message == MissingFieldsMessage
  {
    if !form.hasImage || form.name == "" || form.price == "" then Alert(MissingFieldsMessage)
    else Proceed(form)
  }

  /** A missing image, name or price is refused; the description never matters. */
  lemma NewProductRequirements(form: ProductForm, description: string)
    ensures CheckNewProduct(form).Proceed? <==> form.hasImage && form.name != [] && form.price != []
    ensures CheckNewProduct(form.(description := description)).Proceed? == CheckNewProduct(form).Proceed?
  {
  }

  /** The characters `String.prototype.trim` removes: ECMAScript WhiteSpace
      and LineTerminator. */
  predicate IsTrimmed(c: char) {
    || '\t' <= c <= '\r'               // tab, line feed, vertical tab, form feed, carriage return
    || c == ' ' || c == '\U{A0}' || c == '\U{1680}'
    || '\U{2000}' <= c <= '\U{200A}'   // en quad .. hair space
    || c == '\U{2028}' || c == '\U{2029}' || c == '\U{202F}' || c == '\U{205F}'
    || c == '\U{3000}' || c == '\U{FEFF}'
  }

  function TrimStart(s: string): (r: string)
    ensures |r| <= |s| && r == s[|s| - |r|..]
    ensures forall i :: 0 <= i < |s| - |r| ==> IsTrimmed(s[i])
    ensures r != [] ==> !IsTrimmed(r[0])
  {
    if s != [] && IsTrimmed(s[0]) then TrimStart(s[1..]) else s
  }

  function TrimEnd(s: string): (r: string)
    ensures |r| <= |s| && r == s[..|r|]
    ensures forall i :: |r| <= i < |s| ==> IsTrimmed(s[i])
    ensures r != [] ==> !IsTrimmed(r[|r| - 1])
  {
    if s != [] && IsTrimmed(s[|s| - 1]) then TrimEnd(s[..|s| - 1]) else s
  }

  function Trim(s: string): string {
    TrimEnd(TrimStart(s))
  }

  /** `trim` strips nothing from a trimmed string. */
  lemma TrimIdempotent(s: string)
    ensures Trim(Trim(s)) == Trim(s)
  {
    var t := Trim(s);
    if t != [] {
      assert TrimStart(t) == t;
      assert TrimEnd(t) == t;
    }
  }

  /** The shop-name button's guard: the trimmed input, when non-empty. */
  function CheckShopName(input: string): (r: Outcome<string>)
    ensures r.Proceed? ==> r.value == Trim(input) && r.value != []
    ensures r.Alert? ==> r.message == MissingNameMessage
  {
    var name := Trim(input);
    if name != "" then Proceed(name) else Alert(MissingNameMessage)
  }

  /** `trim` leaves nothing exactly when every character is whitespace. */
  lemma TrimEmptyIffBlank(s: string)
    ensures Trim(s) == [] <==> forall i :: 0 <= i < |s| ==> IsTrimmed(s[i])
  {
    var front := TrimStart(s);
    if front != [] {
      var k := |s| - |front|;
      assert s[k] == front[0];
      assert TrimEnd(front) != [];
    }
  }

  /** A name is refused exactly when the input is blank. */
  lemma ShopNameRefusedIffBlank(input: string)
    ensures CheckShopName(input).Alert? <==> forall i :: 0 <= i < |input| ==> IsTrimmed(input[i])
  {
    TrimEmptyIffBlank(input);
  }

  /** An accepted name is the input with exactly its leading and trailing
      whitespace removed: it starts and ends with a non-space, and everything
      before and after it in the input is whitespace. */
  lemma ShopNameAccepted(input: string)
    requires CheckShopName(input).Proceed?
    ensures var name := CheckShopName(input).value;
            && name != []
            && !IsTrimmed(name[0]) && !IsTrimmed(name[|name| - 1])
            && exists k :: && Search.OccursAt(input, name, k)
                           && (forall i :: 0 <= i < k ==> IsTrimmed(input[i]))
                           && (forall i :: k + |name| <= i < |input| ==> IsTrimmed(input[i]))
  {
    var front := TrimStart(input);
    var name := TrimEnd(front);
    var k := |input| - |front|;
    assert CheckShopName(input).value == name;
    assert input[k..k + |name|] == name;
    assert Search.OccursAt(input, name, k);
    forall i | k + |name| <= i < |input| ensures IsTrimmed(input[i]) {
      assert input[i] == front[i - k];
    }
  }
}
