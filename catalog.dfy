/**
 * A product record of `data['products']` in `bot.py`. The source keeps each
 * product as a dictionary, so every field may be missing: `approve` can create
 * a stub that holds only `buyers`.
 */
module Catalog {
  import opened Wrappers
  import opened Lists

  datatype Product = Product(
    price: Option<string>,
    username: Option<string>,
    password: Option<string>,
    secret: Option<string>,
    name: Option<string>,
    buyers: Option<seq<int>>)

  /** The empty dictionary `{}`. */
  const EmptyProduct := Product(None, None, None, None, None, None)

  /** The field names `editproduct` accepts. */
  const EditableFields: set<string> := {"price", "username", "password", "secret"}

  /**
   * `data['products'].get(pid)` followed by `if not product`: a missing id and
   * an empty record both read as "not found".
   */
  function FindProduct(products: map<string, Product>, pid: string): (r: Option<Product>)
    ensures r.Some? <==> pid in products && products[pid] != EmptyProduct
    ensures r.Some? ==> r.value == products[pid]
  {
    if pid in products && products[pid] != EmptyProduct then Some(products[pid]) else None
  }

  /** `product.get('buyers', [])`. */
  function BuyersOf(p: Product): seq<int> {
    p.buyers.GetOr([])
  }

  /** `product.get(field)` for the string-valued fields; `None` for any other name. */
  function FieldValue(p: Product, field: string): Option<string> {
    match field
    case "price" => p.price
    case "username" => p.username
    case "password" => p.password
    case "secret" => p.secret
    case "name" => p.name
    case _ => None
  }

  /** The record `addproduct` builds: the four given fields and an empty buyer list. */
  function NewProduct(price: string, username: string, password: string, secret: string): (p: Product)
    ensures p != EmptyProduct && BuyersOf(p) == [] && p.buyers.Some? && p.name.None?
    ensures FieldValue(p, "price") == Some(price) && FieldValue(p, "username") == Some(username)
    ensures FieldValue(p, "password") == Some(password) && FieldValue(p, "secret") == Some(secret)
  {
    Product(Some(price), Some(username), Some(password), Some(secret), None, Some([]))
  }

  /**
   * The buyer list after `if user_id not in buyers: buyers.append(user_id)`:
   * the old list kept in order, with `uid` at the end when it was missing.
   */
  function AddBuyer(buyers: seq<int>, uid: int): (r: seq<int>)
    ensures uid in r
    ensures uid in buyers ==> r == buyers
    ensures forall x :: x in r <==> x in buyers || x == uid
    ensures |buyers| <= |r| <= |buyers| + 1 && r[..|buyers|] == buyers
    ensures NoDuplicates(buyers) ==> NoDuplicates(r)
  {
    if uid in buyers then buyers else buyers + [uid]
  }

  /**
   * What `data['products'].setdefault(pid, {}).setdefault('buyers', [])` plus the
   * conditional append make of the record `p` (`EmptyProduct` when `pid` was absent).
   */
  function WithBuyer(p: Product, uid: int): (r: Product)
    ensures r.(buyers := p.buyers) == p
    ensures r.buyers == Some(AddBuyer(BuyersOf(p), uid))
    ensures p == EmptyProduct ==> r == Product(None, None, None, None, None, Some([uid]))
  {
    p.(buyers := Some(AddBuyer(BuyersOf(p), uid)))
  }

  /**
   * `product[field] = value` behind the whitelist check of `editproduct`:
   * `None` for a field outside the whitelist (the `invalid_field` reply).
   */
  function EditField(p: Product, field: string, value: string): (r: Option<Product>)
    ensures r.Some? <==> field in EditableFields
    ensures r.Some? ==> FieldValue(r.value, field) == Some(value)
    ensures r.Some? ==> forall f :: f != field ==> FieldValue(r.value, f) == FieldValue(p, f)
    ensures r.Some? ==> r.value.buyers == p.buyers && r.value.name == p.name
  {
    match field
    case "price" => Some(p.(price := Some(value)))
    case "username" => Some(p.(username := Some(value)))
    case "password" => Some(p.(password := Some(value)))
    case "secret" => Some(p.(secret := Some(value)))
    case _ => None
  }

  /** Approving the same buyer twice leaves the list as approving once did. */
  lemma WithBuyerIdempotent(p: Product, uid: int)
    ensures WithBuyer(WithBuyer(p, uid), uid) == WithBuyer(p, uid)
  {
  }

  /** On a duplicate-free list, approving a buyer twice lists it exactly once. */
  lemma {:induction false} ApproveTwiceNoDuplicate(p: Product, uid: int)
    requires NoDuplicates(BuyersOf(p))
    ensures NoDuplicates(BuyersOf(WithBuyer(WithBuyer(p, uid), uid)))
    ensures multiset(BuyersOf(WithBuyer(WithBuyer(p, uid), uid)))[uid] == 1
  {
    var once := AddBuyer(BuyersOf(p), uid);
    assert BuyersOf(WithBuyer(p, uid)) == once;
    var i :| 0 <= i < |once| && once[i] == uid;
    assert once == once[..i] + [uid] + once[i + 1..];
    assert uid !in once[..i] && uid !in once[i + 1..] by {
      forall k | 0 <= k < |once| && k != i ensures once[k] != uid {}
    }
  }
}
