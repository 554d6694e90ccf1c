/** The wishlist card: a form for a planned purchase, paid in cash or financed,
    and add / delete on the wishlist. */
module Wishlist {
  import opened Records
  import opened Folds
  import Helpers

  /** The `newItem` buffer. */
  datatype WishForm = WishForm(name: string, cost: real, isEmi: bool, months: nat, interest: real)

  /** The form at start and after every add: cash payment, 12 months at 15% if financed. */
  const DefaultForm := WishForm("", 0.0, false, 12, 15.0)

  /** Add accepts a form with a name and a non-zero cost. */
  predicate Accepts(f: WishForm) { f.name != "" && f.cost != 0.0 }

  /** A financed add needs a finite installment (see `Helpers.EmiDefined`). */
  predicate EmiComputable(f: WishForm)
  {
    f.isEmi ==> Helpers.EmiDefined(f.cost, f.interest, f.months)
  }

  /** The record an add appends: the form, its monthly charge and the id. A cash
      purchase is charged its whole cost; a financed one its EMI. */
  function NewItem(f: WishForm, id: int): (w: WishItem)
    requires EmiComputable(f)
    ensures w.id == id && w.name == f.name && w.cost == f.cost
    ensures w.isEmi == f.isEmi && w.months == f.months && w.interest == f.interest
    ensures !f.isEmi ==> w.calculatedMonthly == f.cost
    ensures f.isEmi ==> w.calculatedMonthly == Helpers.CalculateEmi(f.cost, f.interest, f.months)
  {
    var monthly := if f.isEmi then Helpers.CalculateEmi(f.cost, f.interest, f.months) else f.cost;
    WishItem(id, f.name, f.cost, f.isEmi, f.months, f.interest, monthly)
  }

  /** The default financing terms always give a finite installment, and a financed
      item of non-negative cost is charged a non-negative whole amount each month. */
  lemma DefaultTermsComputable(cost: real)
    requires cost >= 0.0
    ensures EmiComputable(DefaultForm.(cost := cost, isEmi := true))
    ensures Helpers.CalculateEmi(cost, DefaultForm.interest, DefaultForm.months) >= 0.0
  {
    Helpers.EmiNonnegative(cost, 15.0, 12);
  }

  class WishlistCard {
    /** The list owned by the parent and replaced through `setWishlist`. */
    var wishlist: seq<WishItem>
    var form: WishForm

    constructor (wishlist: seq<WishItem>)
      ensures this.wishlist == wishlist && form == DefaultForm
    {
      this.wishlist := wishlist;
      form := DefaultForm;
    }

    /** An input's change handler: replaces the buffer. */
    method Edit(f: WishForm)
      modifies this
      ensures form == f && wishlist == old(wishlist)
    {
      form := f;
    }

    /** `addWishlist`: append one item and restore the default form, or do nothing. */
    method Add(id: int) returns (added: bool)
      requires Accepts(form) ==> EmiComputable(form)
      modifies this
      ensures added == Accepts(old(form))
      ensures added ==> wishlist == old(wishlist) + [NewItem(old(form), id)]
      ensures added ==> form == DefaultForm
      ensures !added ==> wishlist == old(wishlist) && form == old(form)
    {
      if form.name == "" || form.cost == 0.0 {
        return false;
      }
      var monthly := form.cost;
      if form.isEmi {
        monthly := Helpers.CalculateEmi(form.cost, form.interest, form.months);
      }
      wishlist := wishlist + [WishItem(id, form.name, form.cost, form.isEmi, form.months, form.interest, monthly)];
      form := DefaultForm;
      return true;
    }

    /** The delete button of a row: keep every item whose id differs. */
    method Delete(id: int)
      modifies this
      ensures wishlist == RemoveId(old(wishlist), ItemId, id)
      ensures form == old(form)
    {
      wishlist := RemoveId(wishlist, ItemId, id);
    }
  }
}
