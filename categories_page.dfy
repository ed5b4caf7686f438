/**
 * The admin category page: the slug rule derived from a category's name, and
 * create / delete against the `categories` table.
 */
module CategoriesPage {
  import opened Common

  /** `\w` in a JavaScript regular expression without the `u` flag, or `-`. */
  predicate IsSlugChar(c: char) {
    'a' <= c <= 'z' || 'A' <= c <= 'Z' || '0' <= c <= '9' || c == '_' || c == '-'
  }

  /** `.replace(/ /g, '-')`: each plain space becomes a hyphen. */
  function Hyphenate(s: string): (r: string)
    ensures |r| == |s|
    ensures forall i :: 0 <= i < |s| ==> r[i] == if s[i] == ' ' then '-' else s[i]
  {
    seq(|s|, i requires 0 <= i < |s| => if s[i] == ' ' then '-' else s[i])
  }

  /** `name.toLowerCase().replace(/ /g, '-').replace(/[^\w-]+/g, '')`. */
  function Slug(name: string): string {
    Filter(Hyphenate(Lower(name)), IsSlugChar)
  }

  /**
   * The slug holds only lower-case letters, digits, `_` and `-`, is no longer
   * than the name, and keeps, in order, exactly the name's characters that
   * survive lower-casing and hyphenation.
   */
  lemma SlugSpec(name: string)
    ensures forall c :: c in Slug(name) ==> IsSlugChar(c) && !IsAsciiUpper(c)
    ensures |Slug(name)| <= |name|
    ensures IsSubsequence(Slug(name), Hyphenate(Lower(name)))
  {
    var h := Hyphenate(Lower(name));
    FilterSpec(h, IsSlugChar);
    forall c | c in Slug(name) ensures !IsAsciiUpper(c) {
      var i :| 0 <= i < |h| && h[i] == c;
    }
  }

  /** A string made only of slug characters and no upper case is its own slug. */
  lemma {:induction false} SlugFixed(s: string)
    requires forall c :: c in s ==> IsSlugChar(c) && !IsAsciiUpper(c)
    ensures Slug(s) == s
  {
    assert Lower(s) == s;
    assert Hyphenate(s) == s;
    FilterAll(s, IsSlugChar);
  }

  /** Deriving the slug of a slug changes nothing. */
  lemma SlugIdempotent(name: string)
    ensures Slug(Slug(name)) == Slug(name)
  {
    SlugSpec(name);
    SlugFixed(Slug(name));
  }

  datatype Category = Category(id: nat, name: string, slug: string)

  datatype NewCategory = NewCategory(name: string, slug: string)

  const EmptyNewCategory: NewCategory := NewCategory("", "")

  // ---------------------------------------------------------------------------
  // `.order('name')`: names compared character by character by code point
  // ---------------------------------------------------------------------------

  /** `a` sorts no later than `b`: a prefix first, otherwise the first differing character decides. */
  predicate NameLe(a: string, b: string)
    decreases |a|
  {
    a == [] || (b != [] && (a[0] < b[0] || (a[0] == b[0] && NameLe(a[1..], b[1..]))))
  }

  lemma {:induction false} NameLeTotal(a: string, b: string)
    ensures NameLe(a, b) || NameLe(b, a)
    decreases |a|
  {
    if a != [] && b != [] && a[0] == b[0] {
      NameLeTotal(a[1..], b[1..]);
    }
  }

  lemma {:induction false} NameLeTrans(a: string, b: string, c: string)
    requires NameLe(a, b) && NameLe(b, c)
    ensures NameLe(a, c)
    decreases |a|
  {
    if a != [] && a[0] == b[0] && b[0] == c[0] {
      NameLeTrans(a[1..], b[1..], c[1..]);
    }
  }

  /** The listing order: every category's name sorts no later than the names after it. */
  ghost predicate SortedByName(cs: seq<Category>) {
    forall i, j :: 0 <= i < j < |cs| ==> NameLe(cs[i].name, cs[j].name)
  }

  /**
   * Where the database places a new row in the `name` order: after every row
   * whose name sorts no later than it, before the first that sorts after it.
   */
  function InsertByName(cs: seq<Category>, c: Category): seq<Category>
    decreases |cs|
  {
    if cs == [] then [c]
    else if !NameLe(cs[0].name, c.name) then [c] + cs
    else [cs[0]] + InsertByName(cs[1..], c)
  }

  /** Inserting a category into a name-ordered listing keeps it ordered and adds exactly that category. */
  lemma {:induction false} InsertByNameSpec(cs: seq<Category>, c: Category)
    requires SortedByName(cs)
    ensures SortedByName(InsertByName(cs, c))
    ensures multiset(InsertByName(cs, c)) == multiset(cs) + multiset{c}
    decreases |cs|
  {
    InsertByNameElements(cs, c);
    if cs == [] {
    } else if !NameLe(cs[0].name, c.name) {
      NameLeTotal(cs[0].name, c.name);
      forall j | 0 <= j < |cs| ensures NameLe(c.name, cs[j].name) {
        if j > 0 {
          NameLeTrans(c.name, cs[0].name, cs[j].name);
        }
      }
      SortedCons(c, cs);
    } else {
      var t := cs[1..];
      SortedTail(cs);
      InsertByNameSpec(t, c);
      HeadBeforeInserted(cs, c);
      SortedCons(cs[0], InsertByName(t, c));
    }
  }

  lemma {:induction false} InsertByNameElements(cs: seq<Category>, c: Category)
    ensures multiset(InsertByName(cs, c)) == multiset(cs) + multiset{c}
    decreases |cs|
  {
    if cs != [] && NameLe(cs[0].name, c.name) {
      InsertByNameElements(cs[1..], c);
      assert cs == [cs[0]] + cs[1..];
    }
  }

  /** When the head stays first, it sorts no later than anything after it. */
  lemma HeadBeforeInserted(cs: seq<Category>, c: Category)
    requires SortedByName(cs) && cs != [] && NameLe(cs[0].name, c.name)
    ensures forall j :: 0 <= j < |InsertByName(cs[1..], c)| ==> NameLe(cs[0].name, InsertByName(cs[1..], c)[j].name)
  {
    var t := cs[1..];
    var r := InsertByName(t, c);
    InsertByNameElements(t, c);
    forall j | 0 <= j < |r| ensures NameLe(cs[0].name, r[j].name) {
      assert r[j] in multiset(r);
      if r[j] != c {
        assert r[j] in multiset(t);
        var k :| 0 <= k < |t| && t[k] == r[j];
        assert cs[k + 1] == r[j];
      }
    }
  }

  lemma SortedTail(cs: seq<Category>)
    requires SortedByName(cs) && cs != []
    ensures SortedByName(cs[1..])
  {
    var t := cs[1..];
    forall i, j | 0 <= i < j < |t| ensures NameLe(t[i].name, t[j].name) {
      assert t[i] == cs[i + 1] && t[j] == cs[j + 1];
    }
  }

  lemma SortedCons(h: Category, t: seq<Category>)
    requires SortedByName(t)
    requires forall j :: 0 <= j < |t| ==> NameLe(h.name, t[j].name)
    ensures SortedByName([h] + t)
  {
    var r := [h] + t;
    forall i, j | 0 <= i < j < |r| ensures NameLe(r[i].name, r[j].name) {
      assert r[j] == t[j - 1];
      if i > 0 {
        assert r[i] == t[i - 1];
      }
    }
  }

  /** Removing rows from a name-ordered listing keeps it ordered. */
  lemma {:induction false} FilterKeepsSorted(cs: seq<Category>, p: Category -> bool)
    requires SortedByName(cs)
    ensures SortedByName(Filter(cs, p))
    decreases |cs|
  {
    if cs != [] {
      var t := cs[1..];
      SortedTail(cs);
      FilterKeepsSorted(t, p);
      if p(cs[0]) {
        var r := Filter(t, p);
        FilterSpec(t, p);
        forall j | 0 <= j < |r| ensures NameLe(cs[0].name, r[j].name) {
          assert r[j] in r;
          var k :| 0 <= k < |t| && t[k] == r[j];
          assert cs[k + 1] == r[j];
        }
        SortedCons(cs[0], r);
      }
    }
  }

  /** The `categories` table, in `name` order as `fetchCategories` reads it; ids are handed out by the table. */
  class CategoryTable {
    var rows: seq<Category>
    var nextId: nat

    ghost predicate Valid()
      reads this
    {
      (forall c :: c in rows ==> c.id < nextId) && SortedByName(rows)
    }

    constructor ()
      ensures Valid() && rows == [] && nextId == 0
    {
      rows, nextId := [], 0;
    }

    /** `insert([newCat])`: a new row with a fresh id in its place by name, or `refusal` and no change. */
    method Insert(c: NewCategory, refusal: Option<string>) returns (err: Option<string>)
      requires Valid()
      modifies this
      ensures Valid() && err == refusal
      ensures refusal.None? ==> rows == InsertByName(old(rows), Category(old(nextId), c.name, c.slug))
      ensures refusal.Some? ==> rows == old(rows)
    {
      err := refusal;
      if refusal.None? {
        var row := Category(nextId, c.name, c.slug);
        InsertByNameSpec(rows, row);
        forall x | x in InsertByName(rows, row) ensures x.id < nextId + 1 {
          assert x in multiset(InsertByName(rows, row));
        }
        rows := InsertByName(rows, row);
        nextId := nextId + 1;
      }
    }

    /** `delete().eq('id', id)`. */
    method Delete(id: nat, refusal: Option<string>) returns (err: Option<string>)
      requires Valid()
      modifies this
      ensures Valid() && err == refusal && nextId == old(nextId)
      ensures rows == if refusal.None? then Filter(old(rows), (c: Category) => c.id != id) else old(rows)
    {
      err := refusal;
      if refusal.None? {
        FilterSpec(rows, (c: Category) => c.id != id);
        FilterKeepsSorted(rows, (c: Category) => c.id != id);
        rows := Filter(rows, (c: Category) => c.id != id);
      }
    }
  }

  class CategoriesPage {
    var categories: seq<Category>
    var newCat: NewCategory
    var error: Option<string>
    var loading: bool

    constructor ()
      ensures categories == [] && newCat == EmptyNewCategory && error.None? && loading
    {
      categories, newCat, error, loading := [], EmptyNewCategory, None, true;
    }

    /** The name field's change handler: name and slug are set together, the slug re-derived. */
    method OnNameChange(name: string)
      modifies this
      ensures newCat == NewCategory(name, Slug(name))
      ensures categories == old(categories) && error == old(error) && loading == old(loading)
    {
      newCat := NewCategory(name, Slug(name));
    }

    /** `fetchCategories`: the table's rows, or the error message and the old listing. */
    method FetchCategories(table: CategoryTable, refusal: Option<string>)
      modifies this
      ensures !loading && newCat == old(newCat)
      ensures refusal.None? ==> categories == table.rows && error == old(error)
      ensures refusal.Some? ==> categories == old(categories) && error == refusal
    {
      if refusal.Some? {
        error := refusal;
      } else {
        categories := table.rows;
      }
      loading := false;
    }

    /** `handleCreate`: insert the form's category; success empties the form and refetches, failure keeps it. */
    method HandleCreate(table: CategoryTable, insertRefusal: Option<string>, fetchRefusal: Option<string>)
      requires table.Valid()
      modifies this, table
      ensures table.Valid()
      ensures insertRefusal.Some? ==>
        table.rows == old(table.rows) && newCat == old(newCat) && error == insertRefusal && categories == old(categories)
      ensures insertRefusal.None? ==>
        && table.rows == InsertByName(old(table.rows), Category(old(table.nextId), old(newCat).name, old(newCat).slug))
        && newCat == EmptyNewCategory
        && error == fetchRefusal
        && categories == (if fetchRefusal.None? then table.rows else old(categories))
    {
      error := None;
      var err := table.Insert(newCat, insertRefusal);
      if err.Some? {
        error := err;
      } else {
        newCat := EmptyNewCategory;
        FetchCategories(table, fetchRefusal);
      }
    }

    /** `handleDelete`: nothing unless confirmed; then delete and refetch, or show the error. */
    method HandleDelete(table: CategoryTable, id: nat, confirmed: bool, deleteRefusal: Option<string>, fetchRefusal: Option<string>)
      requires table.Valid()
      modifies this, table
      ensures table.Valid() && newCat == old(newCat)
      ensures !confirmed ==> table.rows == old(table.rows) && categories == old(categories) && error == old(error)
      ensures confirmed && deleteRefusal.Some? ==>
        table.rows == old(table.rows) && categories == old(categories) && error == deleteRefusal
      ensures confirmed && deleteRefusal.None? ==>
        && table.rows == Filter(old(table.rows), (c: Category) => c.id != id)
        && (fetchRefusal.None? ==> categories == table.rows && error == old(error))
        && (fetchRefusal.Some? ==> categories == old(categories) && error == fetchRefusal)
    {
      if !confirmed {
        return;
      }
      var err := table.Delete(id, deleteRefusal);
      if err.Some? {
        error := err;
      } else {
        FetchCategories(table, fetchRefusal);
      }
    }
  }
}
