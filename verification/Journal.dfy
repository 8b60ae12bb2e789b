/** What a service has seen, with who sent it. */
module Journal {

  datatype Noted<T> = Noted(who: nat, what: T)

  /** What one caller sent, in order. */
  function Own<T>(log: seq<Noted<T>>, me: nat): seq<T> {
    if log == [] then [] else
    var last := log[|log| - 1];
    Own(log[..|log| - 1], me) + if last.who == me then [last.what] else []
  }

  lemma OwnFurther<T>(log: seq<Noted<T>>, x: Noted<T>, me: nat)
    ensures Own(log + [x], me) == Own(log, me) + if x.who == me then [x.what] else []
  {
    assert (log + [x])[..|log|] == log;
  }

  /** Others leave no trace among one's own. */
  lemma {:induction false} OwnForeign<T>(log: seq<Noted<T>>, more: seq<Noted<T>>, me: nat)
    requires forall x | x in more :: x.who != me
    ensures Own(log + more, me) == Own(log, me)
  {
    if more == [] {
      assert log + more == log;
    } else {
      var n := |more| - 1;
      OwnForeign(log, more[..n], me);
      OwnFurther(log + more[..n], more[n], me);
      assert log + more == log + more[..n] + [more[n]];
    }
  }
}
