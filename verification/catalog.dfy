/**
 * The records the listing view shows and its search filter: a product is
 * kept when its name or its owner's name, lower-cased, or the decimal text
 * of its price or of its id, contains the lower-cased search term.
 */
module Catalog {
  import opened Text

  datatype User = User(id: int, name: string)

  /** A product with its owning user embedded; prices are whole numbers here. */
  datatype Product = Product(id: int, name: string, price: nat, user: User)

  /** The two dotted paths the filter looks up: "name" and "user.name". */
  datatype SearchField = Name | UserName
  {
    /** The dotted path this field stands for. */
    function Path(): string {
      match this
      case Name => "name"
      case UserName => "user.name"
    }
  }

  const SearchFields: seq<SearchField> := [Name, UserName]

  /** Resolves a search field on a product (the dotted-path lookup, one accessor per path). */
  function FieldValue(field: SearchField, p: Product): (r: string)
    ensures field.Path() == "name" ==> r == p.name
    ensures field.Path() == "user.name" ==> r == p.user.name
  {
    match field
    case Name => p.name
    case UserName => p.user.name
  }

  /** `searchFields.some(...)`: some listed field, lower-cased, includes the term. */
  predicate SomeFieldMatches(fields: seq<SearchField>, p: Product, termLower: string)
    ensures SomeFieldMatches(fields, p, termLower) ==> fields != []
    ensures termLower == [] && fields != [] ==> SomeFieldMatches(fields, p, termLower)
  {
    if fields == [] then false
    else Includes(ToLower(FieldValue(fields[0], p)), termLower)
         || SomeFieldMatches(fields[1..], p, termLower)
  }

  /** `some` holds exactly when one of the listed fields, lower-cased, includes the term. */
  lemma {:induction false} SomeFieldMatchesIffSome(fields: seq<SearchField>, p: Product, termLower: string)
    ensures SomeFieldMatches(fields, p, termLower) <==>
              exists k :: 0 <= k < |fields| && Includes(ToLower(FieldValue(fields[k], p)), termLower)
  {
    if fields != [] {
      SomeFieldMatchesIffSome(fields[1..], p, termLower);
      if SomeFieldMatches(fields[1..], p, termLower) {
        var k :| 0 <= k < |fields[1..]| && Includes(ToLower(FieldValue(fields[1..][k], p)), termLower);
        assert fields[k + 1] == fields[1..][k];
      }
      forall k | 1 <= k < |fields| && Includes(ToLower(FieldValue(fields[k], p)), termLower)
        ensures SomeFieldMatches(fields[1..], p, termLower)
      {
        assert fields[1..][k - 1] == fields[k];
      }
    }
  }

  /** The filter's test for one product, given the already lower-cased term. */
  predicate Matches(p: Product, termLower: string)
    ensures termLower == [] ==> Matches(p, termLower)
  {
    SomeFieldMatches(SearchFields, p, termLower)
    || Includes(NatToString(p.price), termLower)
    || Includes(IntToString(p.id), termLower)
  }

  /**
   * A product matches exactly when the term occurs in one of its four searched
   * texts, each lower-cased: the name, the owner's name, the decimal price and
   * the decimal id. Decimal text has no letters, so all four are compared
   * ignoring case.
   */
  lemma MatchesIffSomeTextContains(p: Product, termLower: string)
    ensures Matches(p, termLower) <==>
              (|| Contains(ToLower(p.name), termLower)
               || Contains(ToLower(p.user.name), termLower)
               || Contains(ToLower(NatToString(p.price)), termLower)
               || Contains(ToLower(IntToString(p.id)), termLower))
  {
    IncludesIffOccurs(ToLower(p.name), termLower);
    IncludesIffOccurs(ToLower(p.user.name), termLower);
    IncludesIffOccurs(NatToString(p.price), termLower);
    IncludesIffOccurs(IntToString(p.id), termLower);
    DecimalTextIsLowerCase(p.price, p.id);
    assert SomeFieldMatches([UserName], p, termLower) <==> Includes(ToLower(p.user.name), termLower);
    assert SearchFields[1..] == [UserName];
  }

  /** `products.filter(...)` with an already lower-cased term; keeps the order of `products`. */
  function FilterLower(products: seq<Product>, termLower: string): (r: seq<Product>)
    ensures |r| <= |products|
    ensures forall p :: p in r ==> p in products && Matches(p, termLower)
    ensures forall p :: p in products && Matches(p, termLower) ==> p in r
  {
    if products == [] then []
    else if Matches(products[0], termLower) then [products[0]] + FilterLower(products[1..], termLower)
    else FilterLower(products[1..], termLower)
  }

  /** The search filter: the term is lower-cased once, then every product is tested. */
  function Filter(products: seq<Product>, searchTerm: string): (r: seq<Product>)
    ensures forall p :: p in r <==> p in products && Matches(p, ToLower(searchTerm))
  {
    FilterLower(products, ToLower(searchTerm))
  }

  /** `s` is `t` with some elements left out, the rest in their original order. */
  ghost predicate IsSubsequence<T>(s: seq<T>, t: seq<T>)
    decreases |t|
  {
    s == [] || (t != [] && ((s[0] == t[0] && IsSubsequence(s[1..], t[1..])) || IsSubsequence(s, t[1..])))
  }

  /** The filtered list is an order-preserving subsequence of the product list. */
  lemma {:induction false} FilterIsSubsequence(products: seq<Product>, termLower: string)
    ensures IsSubsequence(FilterLower(products, termLower), products)
  {
    if products != [] {
      FilterIsSubsequence(products[1..], termLower);
    }
  }

  /** Filtering distributes over concatenation: each part is filtered on its own. */
  lemma {:induction false} FilterConcat(a: seq<Product>, b: seq<Product>, termLower: string)
    ensures FilterLower(a + b, termLower) == FilterLower(a, termLower) + FilterLower(b, termLower)
  {
    if a != [] {
      assert (a + b)[0] == a[0] && (a + b)[1..] == a[1..] + b;
      FilterConcat(a[1..], b, termLower);
    } else {
      assert a + b == b;
    }
  }

  /** An empty search term keeps every product, in order. */
  lemma {:induction false} FilterEmptyTerm(products: seq<Product>)
    ensures Filter(products, "") == products
  {
    if products != [] {
      FilterEmptyTerm(products[1..]);
      assert ToLower("") == "";
    }
  }

  /** Filtering an already-filtered list with the same term changes nothing. */
  lemma {:induction false} FilterLowerIdempotent(products: seq<Product>, termLower: string)
    ensures FilterLower(FilterLower(products, termLower), termLower) == FilterLower(products, termLower)
  {
    if products != [] {
      FilterLowerIdempotent(products[1..], termLower);
    }
  }

  lemma FilterIdempotent(products: seq<Product>, searchTerm: string)
    ensures Filter(Filter(products, searchTerm), searchTerm) == Filter(products, searchTerm)
  {
    FilterLowerIdempotent(products, ToLower(searchTerm));
  }

  /** The search ignores the case of the term: terms equal after lower-casing filter alike. */
  lemma FilterIgnoresTermCase(products: seq<Product>, searchTerm: string)
    ensures Filter(products, ToLower(searchTerm)) == Filter(products, searchTerm)
  {
    ToLowerIdempotent(searchTerm);
  }

  /** Kept products keep their multiplicity; dropped ones disappear entirely. */
  lemma {:induction false} FilterCounts(products: seq<Product>, termLower: string, p: Product)
    ensures multiset(FilterLower(products, termLower))[p]
         == if Matches(p, termLower) then multiset(products)[p] else 0
  {
    if products != [] {
      FilterCounts(products[1..], termLower, p);
      assert products == [products[0]] + products[1..];
    }
  }

  lemma AliceMatchesAli()
    ensures Matches(Product(1, "Widget", 100, User(1, "Alice")), "ali")
  {
    assert ToLower("Alice") == "alice";
    assert Includes("alice", "ali");
  }

  lemma BobMissesAli()
    ensures !Matches(Product(2, "Gadget", 250, User(2, "Bob")), "ali")
  {
    assert ToLower("Gadget") == "gadget" && !Includes("gadget", "ali");
    assert ToLower("Bob") == "bob" && !Includes("bob", "ali");
    assert NatToString(250) == "250" && !Includes("250", "ali");
    assert IntToString(2) == "2" && !Includes("2", "ali");
  }

  lemma FilterTwo(a: Product, b: Product, termLower: string)
    ensures FilterLower([a, b], termLower)
         == (if Matches(a, termLower) then [a] else []) + (if Matches(b, termLower) then [b] else [])
  {
    assert [a, b][1..] == [b];
    assert [b][1..] == [];
  }

  /** Widget (owner Alice, price 100) and Gadget (owner Bob, price 250): "ali" finds Widget through its owner. */
  lemma OwnerSearchExample()
    ensures var widget := Product(1, "Widget", 100, User(1, "Alice"));
            var gadget := Product(2, "Gadget", 250, User(2, "Bob"));
            Filter([widget, gadget], "ali") == [widget]
  {
    AliceMatchesAli();
    BobMissesAli();
    assert ToLower("ali") == "ali";
    FilterTwo(Product(1, "Widget", 100, User(1, "Alice")), Product(2, "Gadget", 250, User(2, "Bob")), "ali");
  }
}
