/** Extensionality and choice for sets and tables keyed by primary keys. */
module Keys {

  lemma SetExt(a: set<int>, b: set<int>)
    requires forall x :: x in a <==> x in b
    ensures a == b
  {
    assert (forall x :: x in a <==> x in b) ==> a == b;
  }

  lemma MapExt<T>(a: map<int, T>, b: map<int, T>)
    requires forall x :: x in a <==> x in b
    requires forall x :: x in a ==> a[x] == b[x]
    ensures a == b
  {
    assert (forall x :: x in a.Keys <==> x in b.Keys) ==> a.Keys == b.Keys;
    assert (forall x :: x in a ==> a[x] == b[x]) ==> a == b;
  }

  lemma NonEmpty(s: set<int>)
    requires s != {}
    ensures exists x :: x in s
  {
    assert (forall x :: x !in s) ==> s == {};
  }
}

/** The results every service of the model returns. */
module Wrappers {

  datatype Option<+T> = None | Some(value: T)

  /** One constructor per kind of refusal or exception of the services. */
  datatype Error =
    | BadMonth            // a first billing month that is not YYYY-MM
    | BadSeason           // a season whose start year cannot be read
    | NoBillingMonths     // every calendar month is skipped
    | BadDate             // a due date no calendar has
    | Missing             // the row does not exist
    | WrongState          // the lifecycle state forbids the step
    | NotAllowed          // a guard of the step refused it
    | Duplicate           // a uniqueness constraint refused the write
    | Foreign             // an invoice selection that is not the member's own
    | Paid                // an invoice selection with money on it

  datatype Result<+T> = Ok(value: T) | Err(error: Error)
}
