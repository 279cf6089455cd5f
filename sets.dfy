/** A fact about finite sets that loops picking elements one at a time rely on. */
module Sets {

  /** A set that is not empty has a member (what `var x :| x in s` needs). */
  lemma NonEmptyHasMember(s: set<int>)
    requires s != {}
    ensures exists x :: x in s
  {
    if forall y :: y !in s {
      assert false;
    }
  }
}
