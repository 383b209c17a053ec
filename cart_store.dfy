/**
 * The cart provider of contexts/CartContext.tsx: the `items` and `isHydrated`
 * state, the effect that restores the cart from local storage on mount, and the
 * effect that writes it back whenever it changes once hydrated.
 */
module CartStore {
  import opened Cart

  /**
   * What `localStorage.getItem(CART_STORAGE_KEY)` followed by `JSON.parse` yields:
   * no value (or the empty string), text that does not parse, a value that is not
   * an array, or an array, adopted element by element as it stands.
   */
  datatype StoredValue = Absent | Unparseable | NotArray | Arr(items: seq<CartItem>)

  /**
   * The list after the restore effect: an array is adopted as is, a non-array
   * becomes empty, and a missing or unparseable value leaves the list untouched.
   */
  function Restored(stored: StoredValue, current: seq<CartItem>): (r: seq<CartItem>)
    ensures stored.Arr? ==> r == stored.items
    ensures stored == NotArray ==> r == []
    ensures stored == Absent || stored == Unparseable ==> r == current
  {
    match stored
    case Absent => current
    case Unparseable => current
    case NotArray => []
    case Arr(xs) => xs
  }

  /** The restore effect run on an empty cart leaves it empty unless the slot holds an array. */
  lemma RestoreOnMount(stored: StoredValue)
    ensures !stored.Arr? ==> Restored(stored, []) == []
    ensures stored.Arr? ==> Restored(stored, []) == stored.items
  {
  }

  /** A saved cart of two lines restores to 3 items priced 25 in total. */
  lemma RestoredExample(a: CartItem, b: CartItem)
    requires a.id == "a" && a.price == 10 && a.quantity == 2
    requires b.id == "b" && b.price == 5 && b.quantity == 1
    ensures TotalItems(Restored(Arr([a, b]), [])) == 3
    ensures TotalPrice(Restored(Arr([a, b]), [])) == 25
  {
    var xs := [a, b];
    assert xs[1..] == [b] && [b][1..] == [];
    assert TotalItems([b]) == b.quantity && TotalPrice([b]) == b.price * b.quantity;
    assert TotalItems(xs) == a.quantity + TotalItems([b]);
    assert TotalPrice(xs) == a.price * a.quantity + TotalPrice([b]);
  }

  class CartProvider {
    /** The line items, in the order they were first added. */
    var items: seq<CartItem>
    /** Set once the restore effect has run; no write happens before it. */
    var isHydrated: bool
    /** The value currently stored under the `beyond-realms-cart` key. */
    var slot: StoredValue
    /** What the slot held when the provider was created. */
    const initialSlot: StoredValue

    /** Storage is untouched before hydration. */
    ghost predicate Valid()
      reads this
    {
      !isHydrated ==> slot == initialSlot
    }

    /** The first render: an empty, not yet hydrated cart over whatever the browser had stored. */
    constructor (stored: StoredValue)
      ensures Valid()
      ensures items == [] && !isHydrated && slot == stored && initialSlot == stored
    {
      items := [];
      isHydrated := false;
      slot := stored;
      initialSlot := stored;
    }

    /** The restore effect; failures to read or parse are logged and swallowed. */
    method LoadEffect()
      requires Valid()
      modifies this`items, this`isHydrated
      ensures Valid()
      ensures isHydrated
      ensures items == Restored(old(slot), old(items))
      ensures slot == old(slot)
    {
      items := Restored(slot, items);
      isHydrated := true;
    }

    /**
     * The save effect: once hydrated it writes the whole list; `writeOk` is whether
     * `localStorage.setItem` succeeded (a failure is logged and the slot keeps its old value).
     */
    method SaveEffect(writeOk: bool)
      requires Valid()
      modifies this`slot
      ensures Valid()
      ensures slot == if isHydrated && writeOk then Arr(items) else old(slot)
    {
      if isHydrated && writeOk {
        slot := Arr(items);
      }
    }

    /**
     * Mounting: both effects run in the first commit (the save effect sees
     * `isHydrated` false and writes nothing), then the re-render caused by the
     * restore runs the save effect again.
     */
    method Mount(writeOk: bool)
      requires Valid() && !isHydrated && items == []
      modifies this`items, this`isHydrated, this`slot
      ensures Valid()
      ensures isHydrated
      ensures items == Restored(initialSlot, [])
      ensures slot == if writeOk then Arr(items) else initialSlot
    {
      SaveEffect(writeOk);
      LoadEffect();
      SaveEffect(writeOk);
    }

    /** `addItem`, followed by the save effect its state change triggers. */
    method AddItem(item: NewItem, writeOk: bool)
      requires Valid()
      modifies this`items, this`slot
      ensures Valid()
      ensures items == Cart.AddItem(old(items), item)
      ensures slot == if isHydrated && writeOk then Arr(items) else old(slot)
    {
      items := Cart.AddItem(items, item);
      SaveEffect(writeOk);
    }

    /** `removeItem`, followed by the save effect. */
    method RemoveItem(id: string, writeOk: bool)
      requires Valid()
      modifies this`items, this`slot
      ensures Valid()
      ensures items == Cart.RemoveItem(old(items), id)
      ensures slot == if isHydrated && writeOk then Arr(items) else old(slot)
    {
      items := Cart.RemoveItem(items, id);
      SaveEffect(writeOk);
    }

    /** `updateQuantity`, followed by the save effect. */
    method UpdateQuantity(id: string, quantity: int, writeOk: bool)
      requires Valid()
      modifies this`items, this`slot
      ensures Valid()
      ensures items == Cart.UpdateQuantity(old(items), id, quantity)
      ensures slot == if isHydrated && writeOk then Arr(items) else old(slot)
    {
      items := Cart.UpdateQuantity(items, id, quantity);
      SaveEffect(writeOk);
    }

    /** `clearCart`, followed by the save effect. */
    method ClearCart(writeOk: bool)
      requires Valid()
      modifies this`items, this`slot
      ensures Valid()
      ensures items == []
      ensures TotalItems(items) == 0 && TotalPrice(items) == 0
      ensures slot == if isHydrated && writeOk then Arr([]) else old(slot)
    {
      items := [];
      SaveEffect(writeOk);
    }

    /** `getTotalItems`: the item count of the current list, at least one per entry when quantities are positive. */
    function GetTotalItems(): (n: int)
      reads this
      ensures n == TotalItems(items)
      ensures PositiveQuantities(items) ==> n >= |items|
    {
      TotalItems(items)
    }

    /** `getTotalPrice`: the price total of the current list, zero for an empty cart. */
    function GetTotalPrice(): (total: int)
      reads this
      ensures total == TotalPrice(items)
      ensures items == [] ==> total == 0
    {
      TotalPrice(items)
    }
  }

  /** A provider mounted over a saved array serves exactly that array, and the slot keeps it. */
  method MountExample(xs: seq<CartItem>) returns (p: CartProvider)
    ensures p.isHydrated && p.items == xs && p.slot == Arr(xs)
  {
    p := new CartProvider(Arr(xs));
    p.Mount(true);
  }

  /** Before hydration no mutation reaches storage. */
  method AddBeforeHydration(stored: StoredValue, item: NewItem) returns (p: CartProvider)
    ensures !p.isHydrated && p.slot == stored && p.items == [WithQuantity(item, 1)]
  {
    p := new CartProvider(stored);
    p.AddItem(item, true);
  }
}
