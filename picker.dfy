/** The autocomplete under the product and supplier inputs: the suggestion
    list is every known name that contains the typed text, compared in lower
    case, and a "create" button is offered when nothing matches. */
module Picker {
  import opened Common
  import opened Text
  import opened Store

  /** `name.toLowerCase().includes(typed.toLowerCase())`. */
  predicate Matches(name: string, typed: string) {
    Contains(Lower(name), Lower(typed))
  }

  function ProductMatches(products: seq<Product>, typed: string): seq<Product> {
    Filter(products, (p: Product) => Matches(p.name, typed))
  }

  function SupplierMatches(suppliers: seq<Supplier>, typed: string): seq<Supplier> {
    Filter(suppliers, (s: Supplier) => Matches(s.name, typed))
  }

  /** The product suggestion list is rendered. */
  predicate ShowProductSuggestions(products: seq<Product>, typed: string) {
    typed != "" && |ProductMatches(products, typed)| > 0
  }

  /** The "add new product" button is rendered. */
  predicate ShowCreateProduct(products: seq<Product>, typed: string) {
    typed != "" && |ProductMatches(products, typed)| == 0 && |Trim(typed)| > 1
  }

  /** The "add new supplier" button is rendered. */
  predicate ShowCreateSupplier(suppliers: seq<Supplier>, typed: string) {
    typed != "" && |SupplierMatches(suppliers, typed)| == 0
  }

  lemma EmptyFilter<T(!new)>(s: seq<T>, p: T -> bool)
    ensures |Filter(s, p)| == 0 <==> forall x :: x in s ==> !p(x)
  {
    if |Filter(s, p)| != 0 {
      assert Filter(s, p)[0] in Filter(s, p);
    }
  }

  /** The create-product button is offered exactly when the trimmed text is
      longer than one character and no known product contains the text. */
  lemma CreateProductIff(products: seq<Product>, typed: string)
    ensures ShowCreateProduct(products, typed) <==>
      |Trim(typed)| > 1 && forall p :: p in products ==> !Matches(p.name, typed)
  {
    EmptyFilter(products, (p: Product) => Matches(p.name, typed));
    if |Trim(typed)| > 1 {
      assert typed != "";
    }
  }

  /** The create-supplier button is offered exactly when some text is typed
      and no known supplier contains it. */
  lemma CreateSupplierIff(suppliers: seq<Supplier>, typed: string)
    ensures ShowCreateSupplier(suppliers, typed) <==>
      typed != "" && forall s :: s in suppliers ==> !Matches(s.name, typed)
  {
    EmptyFilter(suppliers, (s: Supplier) => Matches(s.name, typed));
  }

  /** Suggestions and the create-product button never show together, and
      for a text of two or more non-blank characters exactly one of them
      shows. */
  lemma ProductPickerExclusive(products: seq<Product>, typed: string)
    ensures !(ShowProductSuggestions(products, typed) && ShowCreateProduct(products, typed))
    ensures |Trim(typed)| > 1 ==> ShowProductSuggestions(products, typed) || ShowCreateProduct(products, typed)
  {
    if |Trim(typed)| > 1 {
      assert typed != "";
    }
  }

  lemma ContainsSelf(s: string)
    ensures Contains(s, s)
  {
  }

  /** A known name typed in any letter case is always suggested. */
  lemma ExactNameSuggested(products: seq<Product>, p: Product, typed: string)
    requires p in products && Lower(p.name) == Lower(typed) && typed != ""
    ensures p in ProductMatches(products, typed)
    ensures ShowProductSuggestions(products, typed) && !ShowCreateProduct(products, typed)
  {
    ContainsSelf(Lower(typed));
    assert ProductMatches(products, typed) != [];
  }

  lemma {:induction false} ContainsShorter(hay: string, a: string, b: string)
    requires Contains(hay, a + b)
    ensures Contains(hay, a)
    decreases |hay|
  {
    if a + b <= hay {
      assert a <= hay by {
        assert forall i :: 0 <= i < |a| ==> (a + b)[i] == a[i];
      }
    } else {
      ContainsShorter(hay[1..], a, b);
    }
  }

  /** Typing further characters only narrows the suggestion list. */
  lemma NarrowingSuggestions(products: seq<Product>, typed: string, more: string)
    ensures forall p :: p in ProductMatches(products, typed + more) ==> p in ProductMatches(products, typed)
  {
    LowerAppend(typed, more);
    forall p | p in ProductMatches(products, typed + more)
      ensures Matches(p.name, typed)
    {
      ContainsShorter(Lower(p.name), Lower(typed), Lower(more));
    }
  }
}
