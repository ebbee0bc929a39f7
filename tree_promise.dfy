/**
  objectTreePromise: a one-shot result cell. It starts pending; the one
  caller that owns it settles it once, with a tree or with an error; every
  waiter then reads the stored pair.
*/
module TreePromise {
  import opened Kube
  import opened RefTree

  datatype State = Pending | Resolved(tree: ObjectRefTree) | Rejected(error: Error)

  class ObjectTreePromise {
    var tree: ObjectRefTree
    var err: Option<Error>
    /** The `done` channel has been closed. */
    var done: bool
    /** The UID whose record this promise is (the map key it is stored under). */
    ghost const key: UID

    ghost function State(): State
      reads this
    {
      if !done then Pending else if err.Some? then Rejected(err.value) else Resolved(tree)
    }

    /** newObjectTreePromise: zero tree, no error, channel open. */
    constructor (ghost key: UID)
      ensures !done && tree == EmptyTree && err == None && this.key == key
      ensures State() == Pending
    {
      this.key := key;
      tree := EmptyTree;
      err := None;
      done := false;
    }

    /** resolve stores the tree and closes the channel; closing it a second time would panic. */
    method Resolve(t: ObjectRefTree)
      requires !done
      modifies this
      ensures done && tree == t && err == old(err)
      ensures old(err) == None ==> State() == Resolved(t)
    {
      tree := t;
      done := true;
    }

    /** reject stores the error and closes the channel; closing it a second time would panic. */
    method Reject(e: Error)
      requires !done
      modifies this
      ensures done && err == Some(e) && tree == old(tree)
      ensures State() == Rejected(e)
    {
      err := Some(e);
      done := true;
    }

    /**
      wait blocks until the channel is closed; in this sequential model it
      can only be called once the promise is settled, and then returns the
      stored pair.
    */
    method Wait() returns (t: ObjectRefTree, e: Option<Error>)
      requires done
      ensures t == tree && e == err
    {
      t, e := tree, err;
    }
  }
}
