/** The product catalogue page: adding and renaming products, refusing a
    name whose normalized key collides with another product's. */
module ProductsView {
  import opened Common
  import opened Text
  import opened Store

  // -----------------------------------------------------------------------
  // normalize

  /** The characters `/[.\s\-]/g` removes. */
  predicate IsSeparator(c: char) {
    c == '.' || c == '-' || IsSpace(c)
  }

  function StripSeparators(s: string): string {
    Filter(s, (c: char) => !IsSeparator(c))
  }

  /** The two substitutions and the final trim, applied to the stripped,
      lower-cased name. */
  function KeyOf(stripped: string): string {
    Trim(ReplaceFirst(ReplaceFirst(stripped, "винтчета", "винт"), "кутия", ""))
  }

  /** `normalize`: lower case, separators removed, then the first
      "винтчета" shortened to "винт" and the first "кутия" dropped, then
      trimmed. */
  function Normalize(s: string): string {
    KeyOf(StripSeparators(Lower(s)))
  }

  /** A key holds no dot, hyphen or white space, so the final trim never
      removes anything. */
  lemma NormalizeHasNoSeparators(s: string)
    ensures forall c :: c in Normalize(s) ==> !IsSeparator(c)
    ensures Normalize(s) == ReplaceFirst(ReplaceFirst(StripSeparators(Lower(s)), "винтчета", "винт"), "кутия", "")
  {
    var a := StripSeparators(Lower(s));
    var b := ReplaceFirst(a, "винтчета", "винт");
    var k := ReplaceFirst(b, "кутия", "");
    assert forall c :: c in "винт" ==> !IsSeparator(c);
    assert forall c :: c in b ==> !IsSeparator(c);
    assert forall c :: c in k ==> !IsSeparator(c);
    assert NoSpace(k) by {
      forall i | 0 <= i < |k| ensures !IsSpace(k[i]) {
        assert k[i] in k;
      }
    }
    TrimNoSpace(k);
  }

  /** Lower-casing never turns a character into or out of a separator. */
  lemma LowerKeepsSeparators(c: char)
    ensures IsSeparator(LowerChar(c)) <==> IsSeparator(c)
  {
  }

  /** Keys ignore case: a name and its lower-case form share a key. */
  lemma NormalizeIgnoresCase(s: string)
    ensures Normalize(Lower(s)) == Normalize(s)
  {
    LowerIdempotent(s);
  }

  lemma StripDropsSeparator(a: string, c: char, b: string)
    requires IsSeparator(c)
    ensures StripSeparators(a + [c] + b) == StripSeparators(a + b)
  {
    var keep := (x: char) => !IsSeparator(x);
    FilterAppend(a + [c], b, keep);
    FilterAppend(a, [c], keep);
    FilterAppend(a, b, keep);
    assert Filter([c], keep) == [];
  }

  /** Keys ignore separators: inserting a dot, a hyphen or a white-space
      character anywhere does not change the key. */
  lemma NormalizeIgnoresSeparator(a: string, c: char, b: string)
    requires IsSeparator(c)
    ensures Normalize(a + [c] + b) == Normalize(a + b)
  {
    LowerAppend(a + [c], b);
    LowerAppend(a, [c]);
    LowerAppend(a, b);
    LowerKeepsSeparators(c);
    assert Lower([c]) == [LowerChar(c)];
    StripDropsSeparator(Lower(a), LowerChar(c), Lower(b));
  }

  /** A lower-case Cyrillic letter is its own lower-case form and no
      separator. */
  lemma CyrillicLetter(c: char)
    requires '\U{430}' <= c <= '\U{44F}'
    ensures LowerChar(c) == c && !IsSeparator(c)
  {
  }

  /** A word of lower-case Cyrillic letters is its own lower-case form and
      holds no separator. */
  lemma CyrillicWord(s: string)
    requires forall i :: 0 <= i < |s| ==> '\U{430}' <= s[i] <= '\U{44F}'
    ensures Lower(s) == s && StripSeparators(s) == s
  {
    forall i | 0 <= i < |s| ensures Lower(s)[i] == s[i] && !IsSeparator(s[i]) {
      CyrillicLetter(s[i]);
    }
    forall c | c in s ensures !IsSeparator(c) {
      var i :| 0 <= i < |s| && s[i] == c;
    }
    FilterKeepsAll(s, (c: char) => !IsSeparator(c));
  }

  /** Without its first character a pattern does not occur. */
  lemma AbsentPattern(s: string, pat: string)
    requires pat != [] && pat[0] !in s
    ensures forall k: nat :: !OccursAt(s, pat, k)
  {
    forall k: nat ensures !OccursAt(s, pat, k) {
      if k + |pat| <= |s| {
        assert s[k..k + |pat|][0] == s[k];
        assert s[k] in s;
      }
    }
  }

  /** The first substitution shortens only the first "винтчета". */
  lemma FirstSubstitution()
    ensures ReplaceFirst("винтчетавинтчета", "винтчета", "винт") == "винтвинтчета"
  {
    var s := "винтчетавинтчета";
    assert OccursAt(s, "винтчета", 0);
    assert s[..0] + "винт" + s[8..] == "винтвинтчета";
  }

  /** Applied again, it finds the "винтчета" that the first shortening
      exposed at index 4. */
  lemma SecondSubstitution()
    ensures ReplaceFirst("винтвинтчета", "винтчета", "винт") == "винтвинт"
  {
    var t, pat := "винтвинтчета", "винтчета";
    forall j | 0 <= j < 4 ensures !OccursAt(t, pat, j) {
      assert t[j..j + 8][4] == t[j + 4] != pat[4];
    }
    assert OccursAt(t, pat, 4);
    assert t[..4] + "винт" + t[12..] == "винтвинт";
  }

  /** Only lower-case Cyrillic letters. */
  predicate CyrillicLowerWord(s: string) {
    forall i :: 0 <= i < |s| ==> '\U{430}' <= s[i] <= '\U{44F}'
  }

  /** The key of a word of lower-case Cyrillic letters without a 'к' is its
      "винтчета" substitution. */
  lemma KeyOfWord(s: string)
    requires CyrillicLowerWord(s)
    requires 'к' !in ReplaceFirst(s, "винтчета", "винт")
    ensures Normalize(s) == ReplaceFirst(s, "винтчета", "винт")
  {
    CyrillicWord(s);
    NormalizeHasNoSeparators(s);
    AbsentPattern(ReplaceFirst(s, "винтчета", "винт"), "кутия");
  }

  /** Both substitutions touch only the first occurrence, so the key of a
      key can differ from it: whenever shortening `s` exposes a new
      "винтчета", normalizing its key `t` changes it again.
      `FirstSubstitution` and `SecondSubstitution` show such a pair:
      "винтчетавинтчета" and "винтвинтчета". */
  lemma NormalizeNotIdempotent(s: string, t: string)
    requires CyrillicLowerWord(s) && CyrillicLowerWord(t) && 'к' !in t
    requires ReplaceFirst(s, "винтчета", "винт") == t
    requires ReplaceFirst(t, "винтчета", "винт") != t
    ensures Normalize(s) == t
    ensures Normalize(Normalize(s)) != Normalize(s)
  {
    KeyOfWord(s);
    assert 'к' !in "винт";
    KeyOfWord(t);
  }

  // -----------------------------------------------------------------------
  // The duplicate gates

  datatype ProductReason = BlankName | NameTaken(existing: string)

  /** The checks of `addProduct`: a blank name, then the first product whose
      key equals the new name's. */
  function AddProductCheck(newName: string, products: seq<Product>): Option<ProductReason> {
    var name := Trim(newName);
    if name == "" then Some(BlankName)
    else match Find(products, (p: Product) => Normalize(p.name) == Normalize(name))
      case Some(p) => Some(NameTaken(p.name))
      case None => None
  }

  /** A new name is accepted exactly when it is not blank and its key
      collides with no product's; a refusal names a colliding product. */
  lemma AddProductCheckSpec(newName: string, products: seq<Product>)
    ensures AddProductCheck(newName, products).None? <==>
      !IsBlank(newName) && forall p :: p in products ==> Normalize(p.name) != Normalize(Trim(newName))
    ensures AddProductCheck(newName, products) == Some(BlankName) <==> IsBlank(newName)
    ensures AddProductCheck(newName, products).Some? && AddProductCheck(newName, products).value.NameTaken? ==>
      exists p :: p in products && p.name == AddProductCheck(newName, products).value.existing
        && Normalize(p.name) == Normalize(Trim(newName))
  {
    var name := Trim(newName);
    var hit := (p: Product) => Normalize(p.name) == Normalize(name);
    var k := FindIndex(products, hit);
    if k.Some? {
      assert products[k.value] in products;
    } else {
      forall p | p in products ensures !hit(p) {
        var i :| 0 <= i < |products| && products[i] == p;
      }
    }
  }

  /** Names that differ only in case are refused as duplicates. */
  lemma CaseVariantRefused(newName: string, products: seq<Product>, p: Product)
    requires p in products && Lower(p.name) == Lower(Trim(newName))
    ensures AddProductCheck(newName, products).Some?
  {
    NormalizeIgnoresCase(p.name);
    NormalizeIgnoresCase(Trim(newName));
    AddProductCheckSpec(newName, products);
  }

  /** The checks of `saveEdit`: a blank name, then a collision with a product
      other than the one being renamed. */
  function RenameCheck(editValue: string, id: Id, products: seq<Product>): Option<ProductReason> {
    var name := Trim(editValue);
    if name == "" then Some(BlankName)
    else match Find(products, (p: Product) => p.id != id && Normalize(p.name) == Normalize(name))
      case Some(p) => Some(NameTaken(p.name))
      case None => None
  }

  /** A rename is accepted exactly when the name is not blank and collides
      with no OTHER product; the product itself never blocks it. */
  lemma RenameCheckSpec(editValue: string, id: Id, products: seq<Product>)
    ensures RenameCheck(editValue, id, products).None? <==>
      !IsBlank(editValue) && forall p :: p in products && p.id != id ==> Normalize(p.name) != Normalize(Trim(editValue))
    ensures RenameCheck(editValue, id, products) == Some(BlankName) <==> IsBlank(editValue)
  {
    var name := Trim(editValue);
    var hit := (p: Product) => p.id != id && Normalize(p.name) == Normalize(name);
    var k := FindIndex(products, hit);
    if k.Some? {
      assert products[k.value] in products;
    } else {
      forall p | p in products ensures !hit(p) {
        var i :| 0 <= i < |products| && products[i] == p;
      }
    }
  }

  /** Renaming a product to a spelling of its own name (other case, extra
      dots, hyphens or spaces) is accepted when no other product shares that
      key, while adding the same spelling as a new product is refused. */
  lemma OwnSpellingRenameAllowed(q: Product, editValue: string, products: seq<Product>)
    requires q in products && !IsBlank(editValue)
    requires Normalize(Trim(editValue)) == Normalize(q.name)
    requires forall p :: p in products && p.id != q.id ==> Normalize(p.name) != Normalize(q.name)
    ensures RenameCheck(editValue, q.id, products) == None
    ensures AddProductCheck(editValue, products).Some?
  {
    RenameCheckSpec(editValue, q.id, products);
    AddProductCheckSpec(editValue, products);
  }

  // -----------------------------------------------------------------------
  // The page

  class ProductsPage {
    var products: seq<Product>
    var newName: string
    var editingId: Option<Id>
    var editValue: string
    var loading: bool

    constructor()
      ensures products == [] && newName == "" && editingId == None && editValue == "" && !loading
    {
      products, newName, editingId, editValue, loading := [], "", None, "", false;
    }

    /** `loadProducts`: a failed query changes nothing. */
    method LoadProducts(reply: Option<seq<Product>>)
      modifies this
      ensures products == if reply.Some? then reply.value else old(products)
      ensures newName == old(newName) && editingId == old(editingId) && editValue == old(editValue) && loading == old(loading)
    {
      if reply.Some? {
        products := reply.value;
      }
    }

    /** `addProduct`: the checks, then the insert of the trimmed name (the
        key is not stored); the input is cleared only when the insert
        succeeds. `loading` is set around the insert and cleared after. */
    method AddProduct(db: Db, ok: bool) returns (outcome: Outcome<ProductReason>, db': Db)
      requires !loading
      modifies this
      ensures outcome == match AddProductCheck(old(newName), old(products))
                         case Some(r) => Rejected(r)
                         case None => if ok then Saved else WriteFailed
      ensures outcome == Saved ==> db' == InsertProduct(db, Trim(old(newName)), None).0 && newName == ""
      ensures outcome != Saved ==> db' == db && newName == old(newName)
      ensures products == old(products) && editingId == old(editingId) && editValue == old(editValue) && !loading
    {
      var check := AddProductCheck(newName, products);
      if check.Some? {
        return Rejected(check.value), db;
      }
      loading := true;
      var name := Trim(newName);
      loading := false;
      if !ok {
        return WriteFailed, db;
      }
      db' := InsertProduct(db, name, None).0;
      newName := "";
      outcome := Saved;
    }

    /** The "edit" button of a row. */
    method StartEdit(p: Product)
      modifies this
      ensures editingId == Some(p.id) && editValue == p.name
      ensures products == old(products) && newName == old(newName) && loading == old(loading)
    {
      editingId, editValue := Some(p.id), p.name;
    }

    /** `saveEdit`: the checks, then the rename; a successful rename closes
        the row's editor, anything else leaves it open. */
    method SaveEdit(id: Id, db: Db, ok: bool) returns (outcome: Outcome<ProductReason>, db': Db)
      modifies this
      ensures outcome == match RenameCheck(old(editValue), id, old(products))
                         case Some(r) => Rejected(r)
                         case None => if ok then Saved else WriteFailed
      ensures outcome == Saved ==> db' == RenameProduct(db, id, Trim(old(editValue))) && editingId == None
      ensures outcome != Saved ==> db' == db && editingId == old(editingId)
      ensures products == old(products) && newName == old(newName) && editValue == old(editValue) && loading == old(loading)
    {
      var check := RenameCheck(editValue, id, products);
      if check.Some? {
        return Rejected(check.value), db;
      }
      if !ok {
        return WriteFailed, db;
      }
      db' := RenameProduct(db, id, Trim(editValue));
      editingId := None;
      outcome := Saved;
    }
  }
}
