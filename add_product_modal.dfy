/**
 * The admin's add/edit product dialog: the form fields (some of them
 * grouped, such as the nutrition figures), the editable ingredient list, and
 * the product the dialog hands back on save.
 */
module AddProductModal {
  import opened Wrappers
  import opened Lists
  import opened Text

  /** A form field's value: text, a check box, or a group of named text fields. */
  datatype Field = Text(text: string) | Flag(on: bool) | Group(fields: map<string, string>)

  type FormData = map<string, Field>

  /** The outcome of `parseInt` or `parseFloat`: a number, or NaN. */
  datatype Parsed<T> = Number(value: T) | NaN

  /** The nutrition figures of a saved product. */
  datatype Nutrition = Nutrition(calories: int, protein: int, carbs: int, fat: int)

  /** The product `onSave` receives. */
  datatype FinalProduct = FinalProduct(
    fields: FormData,
    id: string,
    price: Parsed<real>,
    discount: Option<Parsed<int>>,
    ingredients: seq<string>,
    nutrition: Nutrition)

  /** A product opened for editing: its fields already written as form text, and its ingredients. */
  datatype EditProduct = EditProduct(fields: FormData, ingredients: seq<string>)

  /** The blank form of a new product. */
  const DefaultForm: FormData := map[
    "id" := Text(""), "title" := Text(""), "price" := Text(""), "discount" := Text(""),
    "type" := Text(""), "category" := Text(""), "featured" := Flag(false),
    "description" := Text(""), "image" := Text(""),
    "nutritionalInfo" := Group(map["calories" := "", "protein" := "", "carbs" := "", "fat" := ""])]

  /** A field's JavaScript truthiness: non-empty text, a ticked box, any group; a missing field is false. */
  predicate Truthy(data: FormData, key: string)
  {
    key in data && match data[key]
      case Text(t) => t != ""
      case Flag(b) => b
      case Group(_) => true
  }

  /** A text field's value, `""` when the field is missing or not text. */
  function TextOf(data: FormData, key: string): string
  {
    if key in data && data[key].Text? then data[key].text else ""
  }

  /** A grouped field's value, `""` when it is missing. */
  function NestedText(data: FormData, parent: string, child: string): string
  {
    if parent in data && data[parent].Group? && child in data[parent].fields then data[parent].fields[child] else ""
  }

  /** `s.split(".")[0]`, the part before the first dot. */
  function BeforeDot(s: string): (r: string)
    ensures '.' !in r
    ensures '.' in s ==> r + "." <= s
    ensures '.' !in s ==> r == s
  {
    if '.' in s then
      var k := FirstIndex(s, '.');
      assert s[..k] + "." == s[..k + 1];
      s[..k]
    else s
  }

  /** `s.split(".")[1]`, the part between the first and the second dot. */
  function SecondPart(s: string): (r: string)
    requires '.' in s
    ensures '.' !in r
    ensures BeforeDot(s) + "." + r <= s
  {
    var k := FirstIndex(s, '.');
    var rest := s[k + 1..];
    var r := BeforeDot(rest);
    assert s == s[..k] + "." + rest;
    r
  }

  /** The group a dotted change starts from: the parent's fields when it is a group, none otherwise. */
  function GroupBase(data: FormData, parent: string): map<string, string>
  {
    if parent in data && data[parent].Group? then data[parent].fields else map[]
  }

  /**
   * `handleInputChange`: a name `parent.child` sets `child` inside the
   * `parent` group and leaves every other field, and the group's other
   * entries, as they were; a name without a dot sets that text field.
   */
  function InputChanged(data: FormData, name: string, value: string): (r: FormData)
    ensures '.' !in name ==> r == data[name := Text(value)]
    ensures '.' in name ==>
      var parent, child := BeforeDot(name), SecondPart(name);
      && parent in r && r[parent].Group?
      && child in r[parent].fields && r[parent].fields[child] == value
      && (forall c :: c != child && c in GroupBase(data, parent) ==>
            c in r[parent].fields && r[parent].fields[c] == GroupBase(data, parent)[c])
    ensures forall k :: k != BeforeDot(name) ==> (k in r <==> k in data) && (k in data ==> r[k] == data[k])
  {
    if '.' in name then
      var parent, child := BeforeDot(name), SecondPart(name);
      data[parent := Group(GroupBase(data, parent)[child := value])]
    else
      data[name := Text(value)]
  }

  /** `s.filter((_, i) => i !== index)`. */
  function WithoutIndex(s: seq<string>, index: int): (r: seq<string>)
    decreases |s|
  {
    if s == [] then []
    else (if index == 0 then [] else [s[0]]) + WithoutIndex(s[1..], index - 1)
  }

  /** Dropping an index outside the list changes nothing. */
  lemma {:induction false} WithoutIndexOutside(s: seq<string>, index: int)
    requires !(0 <= index < |s|)
    ensures WithoutIndex(s, index) == s
    decreases |s|
  {
    if s != [] {
      WithoutIndexOutside(s[1..], index - 1);
      assert WithoutIndex(s, index) == [s[0]] + s[1..];
      assert s == [s[0]] + s[1..];
    }
  }

  /** Dropping an index in range removes that entry alone and keeps the order. */
  lemma {:induction false} WithoutIndexInside(s: seq<string>, index: int)
    requires 0 <= index < |s|
    ensures WithoutIndex(s, index) == s[..index] + s[index + 1..]
    decreases |s|
  {
    if index == 0 {
      WithoutIndexOutside(s[1..], -1);
      assert WithoutIndex(s, index) == s[1..];
    } else {
      WithoutIndexInside(s[1..], index - 1);
      assert WithoutIndex(s, index) == [s[0]] + (s[1..][..index - 1] + s[1..][index..]);
      assert s[..index] == [s[0]] + s[1..][..index - 1];
      assert s[index + 1..] == s[1..][index..];
    }
  }

  /** Saved ingredients: the entries that are not blank once trimmed, in order. */
  function NonBlank(ingredients: seq<string>): (r: seq<string>)
    ensures IsSubsequence(r, ingredients)
    ensures forall x :: x in r <==> x in ingredients && Trim(x) != ""
    ensures forall x :: multiset(r)[x] == if Trim(x) != "" then multiset(ingredients)[x] else 0
  {
    var keep := (ing: string) => Trim(ing) != "";
    FilterSubsequence(ingredients, keep);
    FilterCount(ingredients, keep);
    Filter(ingredients, keep)
  }

  /** Some character of the entry is not white space. */
  predicate HasVisible(x: string)
  {
    exists j :: 0 <= j < |x| && !IsSpace(x[j])
  }

  /**
   * The saved ingredients are exactly the entries with a visible character,
   * each kept as often as it occurs, in their original order.
   */
  lemma NonBlankSpec(ingredients: seq<string>)
    ensures NonBlank(ingredients) == Filter(ingredients, HasVisible)
    ensures forall x :: x in NonBlank(ingredients) <==> x in ingredients && HasVisible(x)
    ensures IsSubsequence(NonBlank(ingredients), ingredients)
  {
    forall x ensures Trim(x) != "" <==> HasVisible(x) {
      TrimEmptyIffBlank(x);
    }
    FilterSame(ingredients, (ing: string) => Trim(ing) != "", HasVisible);
  }

  /** `parseInt(x) || 0`: NaN, and 0 itself, give 0. */
  function IntOrZero(p: Parsed<int>): int
  {
    if p.Number? then p.value else 0
  }

  /** The four required fields are filled in: title, price, type and category. */
  predicate Complete(data: FormData)
  {
    Truthy(data, "title") && Truthy(data, "price") && Truthy(data, "type") && Truthy(data, "category")
  }

  /**
   * `finalProduct`. `stamp` is `Date.now()` written out; `parseFloat` and
   * `parseInt` are the page's parsers.
   */
  function Finalized(data: FormData, ingredients: seq<string>, stamp: string,
                     parseFloat: string -> Parsed<real>, parseInt: string -> Parsed<int>): (p: FinalProduct)
    ensures p.fields == data
    ensures TextOf(data, "id") != "" ==> p.id == TextOf(data, "id")
    ensures TextOf(data, "id") == "" ==> p.id == "prod-" + stamp
    ensures p.price == parseFloat(TextOf(data, "price"))
    ensures Truthy(data, "discount") <==> p.discount.Some?
    ensures p.ingredients == NonBlank(ingredients)
  {
    FinalProduct(
      data,
      if TextOf(data, "id") != "" then TextOf(data, "id") else "prod-" + stamp,
      parseFloat(TextOf(data, "price")),
      if Truthy(data, "discount") then Some(parseInt(TextOf(data, "discount"))) else None,
      NonBlank(ingredients),
      Nutrition(
        IntOrZero(parseInt(NestedText(data, "nutritionalInfo", "calories"))),
        IntOrZero(parseInt(NestedText(data, "nutritionalInfo", "protein"))),
        IntOrZero(parseInt(NestedText(data, "nutritionalInfo", "carbs"))),
        IntOrZero(parseInt(NestedText(data, "nutritionalInfo", "fat")))))
  }

  /** The dialog's state: the form fields and the ingredient list. */
  class ProductModal {
    var ingredients: seq<string>
    var productData: FormData

    constructor ()
      ensures ingredients == [""] && productData == DefaultForm
    {
      ingredients := [""];
      productData := DefaultForm;
    }

    /**
     * The effect that runs when the dialog opens: a product being edited
     * fills the form, and its ingredients when it has any, else one empty
     * entry; a new product gets the blank form. A closed dialog changes nothing.
     */
    method OnOpen(open: bool, edit: Option<EditProduct>)
      modifies this
      ensures !open ==> ingredients == old(ingredients) && productData == old(productData)
      ensures open && edit.Some? ==> productData == edit.value.fields
      ensures open && edit.Some? && edit.value.ingredients != [] ==> ingredients == edit.value.ingredients
      ensures open && edit.Some? && edit.value.ingredients == [] ==> ingredients == [""]
      ensures open && edit.None? ==> productData == DefaultForm && ingredients == [""]
      ensures open ==> ingredients != []
    {
      if open {
        if edit.Some? {
          productData := edit.value.fields;
          if |edit.value.ingredients| > 0 {
            ingredients := edit.value.ingredients;
          } else {
            ingredients := [""];
          }
        } else {
          productData := DefaultForm;
          ingredients := [""];
        }
      }
    }

    /** `handleInputChange`. */
    method HandleInputChange(name: string, value: string)
      modifies this
      ensures productData == InputChanged(old(productData), name, value)
      ensures ingredients == old(ingredients)
    {
      productData := InputChanged(productData, name, value);
    }

    /** `handleSelectChange`: the named field becomes the chosen text. */
    method HandleSelectChange(name: string, value: string)
      modifies this
      ensures productData == old(productData)[name := Text(value)]
      ensures ingredients == old(ingredients)
    {
      productData := productData[name := Text(value)];
    }

    /** `handleFeaturedChange`. */
    method HandleFeaturedChange(checked: bool)
      modifies this
      ensures productData == old(productData)["featured" := Flag(checked)]
      ensures ingredients == old(ingredients)
    {
      productData := productData["featured" := Flag(checked)];
    }

    /** `handleIngredientChange`: entry `index` becomes `value`; the others and the length stay. */
    method HandleIngredientChange(index: int, value: string)
      requires 0 <= index < |ingredients|
      modifies this
      ensures |ingredients| == |old(ingredients)|
      ensures ingredients[index] == value
      ensures forall i :: 0 <= i < |ingredients| && i != index ==> ingredients[i] == old(ingredients)[i]
      ensures productData == old(productData)
    {
      ingredients := ingredients[index := value];
    }

    /** `addIngredient`: one more, empty, entry at the end. */
    method AddIngredient()
      modifies this
      ensures ingredients == old(ingredients) + [""]
      ensures productData == old(productData)
    {
      ingredients := ingredients + [""];
    }

    /** `removeIngredient`: entry `index` is dropped and the others keep their order. */
    method RemoveIngredient(index: int)
      modifies this
      ensures 0 <= index < |old(ingredients)| ==> ingredients == old(ingredients)[..index] + old(ingredients)[index + 1..]
      ensures !(0 <= index < |old(ingredients)|) ==> ingredients == old(ingredients)
      ensures productData == old(productData)
    {
      if 0 <= index < |ingredients| {
        WithoutIndexInside(ingredients, index);
      } else {
        WithoutIndexOutside(ingredients, index);
      }
      ingredients := WithoutIndex(ingredients, index);
    }

    /**
     * `handleSubmit`: an incomplete form saves nothing; a complete one hands
     * `finalProduct` to `onSave`. The form itself is left as it is.
     */
    method HandleSubmit(stamp: string, parseFloat: string -> Parsed<real>, parseInt: string -> Parsed<int>)
      returns (saved: Option<FinalProduct>)
      ensures saved.Some? <==> Complete(productData)
      ensures saved.Some? ==> saved.value == Finalized(productData, ingredients, stamp, parseFloat, parseInt)
    {
      if !Truthy(productData, "title") || !Truthy(productData, "price") || !Truthy(productData, "type") || !Truthy(productData, "category") {
        return None;
      }
      saved := Some(Finalized(productData, ingredients, stamp, parseFloat, parseInt));
    }
  }
}
