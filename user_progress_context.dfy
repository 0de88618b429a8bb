/**
 * Which dialog the user is in: the single `userProgress` state held by
 * `UserProgressContextProvider`, and the dialogs that read it.
 */
module UserProgressContext {

  /** The three values `UserProgressContextProvider` ever writes: no dialog, the cart, the checkout. */
  predicate IsProgress(progress: string)
  {
    progress == "" || progress == "cart" || progress == "checkout"
  }

  /** The cart dialog is open when progress is `"cart"` (`src/Components/UI/Cart.jsx:24`). */
  predicate CartDialogOpen(progress: string)
  {
    progress == "cart"
  }

  /** The checkout dialog is open when progress is `"checkout"` (`src/Components/Checkout.jsx:68,80`). */
  predicate CheckoutDialogOpen(progress: string)
  {
    progress == "checkout"
  }

  /** The two dialogs are never open together, and neither is when progress is `""`. */
  lemma AtMostOneDialogOpen(progress: string)
    ensures !(CartDialogOpen(progress) && CheckoutDialogOpen(progress))
    ensures progress == "" ==> !CartDialogOpen(progress) && !CheckoutDialogOpen(progress)
  {
  }

  class UserProgress {
    var progress: string

    ghost predicate Valid()
      reads this
    {
      IsProgress(progress)
    }

    /** `useState("")`. */
    constructor ()
      ensures Valid() && progress == ""
    {
      progress := "";
    }

    /** Sets `"cart"` whatever the state was, so calling it twice is calling it once. */
    method ShowCart()
      modifies this
      ensures Valid() && progress == "cart"
      ensures CartDialogOpen(progress) && !CheckoutDialogOpen(progress)
    {
      progress := "cart";
    }

    /** Sets `""` whatever the state was: both dialogs close. */
    method HideCart()
      modifies this
      ensures Valid() && progress == ""
      ensures !CartDialogOpen(progress) && !CheckoutDialogOpen(progress)
    {
      progress := "";
    }

    /** Sets `"checkout"` whatever the state was. */
    method ShowCheckout()
      modifies this
      ensures Valid() && progress == "checkout"
      ensures CheckoutDialogOpen(progress) && !CartDialogOpen(progress)
    {
      progress := "checkout";
    }

    /** `hideCheckout` is `hideCart` under another name. */
    method HideCheckout()
      modifies this
      ensures Valid() && progress == ""
      ensures !CartDialogOpen(progress) && !CheckoutDialogOpen(progress)
    {
      HideCart();
    }
  }
}
