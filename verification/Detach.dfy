/**
  Moving several instance directories aside for deletion, all or none
  (src/cli.rs:1502-1527). Any rename and any removal may fail.
 */
module Detach {
  import opened Layout

  type Path = string
  type Tree = nat    // what a directory holds

  /** `original` is to become the `state` directory inside `transaction`. */
  datatype Plan = Plan(original: Path, transaction: Path)

  datatype Outcome =
    | Detached(transactions: seq<Path>)
    | RolledBack                          // the first error is reported
    | Stuck(at: nat)                      // putting plan `at` back failed too

  type Dirs = map<Path, Tree>

  /** The state in each transaction directory that exists. */
  type Transactions = map<Path, Option<Tree>>

  datatype Faults = Faults(move: nat -> bool, back: nat -> bool, clean: nat -> bool)

  /** Each plan has an empty transaction directory of its own. */
  ghost predicate Planned(plans: seq<Plan>, txns: Transactions) {
    && (forall i :: 0 <= i < |plans| ==> plans[i].transaction in txns && txns[plans[i].transaction] == None)
    && (forall i, j :: 0 <= i < j < |plans| ==> plans[i].transaction != plans[j].transaction)
  }

  /** Exactly the first `n` plans are carried out on `was`. */
  ghost predicate Moved(plans: seq<Plan>, n: nat, was: Dirs, dirs: Dirs, txns: Transactions) {
    n <= |plans| && StatesOf(plans, n, was, txns) && Remaining(plans, n, was, dirs)
  }

  ghost predicate StatesOf(plans: seq<Plan>, n: nat, was: Dirs, txns: Transactions)
    requires n <= |plans|
  {
    && (forall i :: 0 <= i < n ==> plans[i].original in was && HasState(txns, plans[i].transaction, was[plans[i].original]))
    && (forall i, j :: 0 <= i < j < n ==> plans[i].original != plans[j].original)
  }

  ghost predicate Remaining(plans: seq<Plan>, n: nat, was: Dirs, dirs: Dirs)
    requires n <= |plans|
  {
    forall p :: (p in dirs <==> p in was && !Taken(plans, n, p)) && (p in dirs ==> dirs[p] == was[p])
  }

  ghost predicate HasState(txns: Transactions, t: Path, tree: Tree) { t in txns && txns[t] == Some(tree) }

  ghost predicate Taken(plans: seq<Plan>, n: nat, p: Path)
    requires n <= |plans|
  {
    exists i :: 0 <= i < n && plans[i].original == p
  }

  /** Every rename of the plans can be done. */
  ghost predicate Possible(plans: seq<Plan>, faults: Faults, dirs: Dirs) {
    && (forall i :: 0 <= i < |plans| ==> !faults.move(i) && plans[i].original in dirs)
    && (forall i, j :: 0 <= i < j < |plans| ==> plans[i].original != plans[j].original)
  }

  /** Nothing else about the transactions changed. */
  ghost predicate Untouched(plans: seq<Plan>, n: nat, was: Transactions, txns: Transactions)
    requires n <= |plans|
  {
    forall t :: (forall i :: 0 <= i < n ==> plans[i].transaction != t) ==>
      (t in txns <==> t in was) && (t in txns ==> txns[t] == was[t])
  }

  /** Of the first `m` plans' transactions, those from `j` on are gone, or empty where the removal
      failed, and no other transaction changed. */
  ghost predicate Emptied(plans: seq<Plan>, j: nat, m: nat, faults: Faults, was: Transactions, txns: Transactions) {
    && m <= |plans| && Untouched(plans, m, was, txns)
    && forall i :: j <= i < m ==>
         && (plans[i].transaction in txns <==> faults.clean(i))
         && (plans[i].transaction in txns ==> txns[plans[i].transaction] == None)
  }

  /** The transactions from `j` to that of the plan that failed are given up. */
  ghost predicate GivenUp(plans: seq<Plan>, j: nat, faults: Faults, was: Transactions, txns: Transactions) {
    exists m: nat :: j < m && Emptied(plans, j, m, faults, was, txns)
  }

  lemma EmptyOne(plans: seq<Plan>, j: nat, m: nat, faults: Faults, before: Transactions, was: Transactions, txns: Transactions)
    requires Planned(plans, before) && 0 < j <= m && Emptied(plans, j, m, faults, before, was)
    requires txns == if faults.clean(j - 1) then was[plans[j - 1].transaction := None] else was - {plans[j - 1].transaction}
    ensures Emptied(plans, j - 1, m, faults, before, txns)
  {
    assert Untouched(plans, m, before, txns) by {
      forall t | forall i :: 0 <= i < m ==> plans[i].transaction != t
        ensures (t in txns <==> t in before) && (t in txns ==> txns[t] == before[t])
      {
        assert plans[j - 1].transaction != t;
      }
    }
  }

  /** The plan that could not be carried out gives up its transaction first. */
  lemma EmptyFirst(plans: seq<Plan>, n: nat, faults: Faults, before: Transactions, was: Transactions, txns: Transactions)
    requires Planned(plans, before) && n < |plans| && Untouched(plans, n, before, was)
    requires txns == if faults.clean(n) then was else was - {plans[n].transaction}
    ensures Emptied(plans, n, n + 1, faults, before, txns)
  {
    var own := plans[n].transaction;
    assert own in was && was[own] == None;
    forall t | forall i :: 0 <= i < n + 1 ==> plans[i].transaction != t
      ensures (t in txns <==> t in before) && (t in txns ==> txns[t] == before[t])
    {
      assert own != t;
    }
  }

  lemma NothingMoved(plans: seq<Plan>, was: Dirs, txns: Transactions)
    ensures Moved(plans, 0, was, was, txns) && Untouched(plans, 0, txns, txns)
  {
  }

  lemma TakenOneMore(plans: seq<Plan>, n: nat, p: Path)
    requires n < |plans|
    ensures Taken(plans, n + 1, p) <==> Taken(plans, n, p) || p == plans[n].original
  {
  }

  lemma MoveState(plans: seq<Plan>, n: nat, was: Dirs, before: Transactions, txns: Transactions)
    requires Planned(plans, before) && n < |plans| && StatesOf(plans, n, was, txns)
    requires plans[n].original in was && !Taken(plans, n, plans[n].original)
    ensures StatesOf(plans, n + 1, was, txns[plans[n].transaction := Some(was[plans[n].original])])
  {
  }

  lemma MoveUntouched(plans: seq<Plan>, n: nat, before: Transactions, txns: Transactions, tree: Tree)
    requires n < |plans| && Untouched(plans, n, before, txns)
    ensures Untouched(plans, n + 1, before, txns[plans[n].transaction := Some(tree)])
  {
    var txns' := txns[plans[n].transaction := Some(tree)];
    forall t | forall i :: 0 <= i < n + 1 ==> plans[i].transaction != t
      ensures (t in txns' <==> t in before) && (t in txns' ==> txns'[t] == before[t])
    {
      assert plans[n].transaction != t;
    }
  }

  lemma MoveOne(plans: seq<Plan>, n: nat, was: Dirs, dirs: Dirs, before: Transactions, txns: Transactions)
    requires Planned(plans, before) && Moved(plans, n, was, dirs, txns) && Untouched(plans, n, before, txns)
    requires n < |plans| && plans[n].original in dirs
    ensures var txns' := txns[plans[n].transaction := Some(dirs[plans[n].original])];
            Moved(plans, n + 1, was, dirs - {plans[n].original}, txns') && Untouched(plans, n + 1, before, txns')
  {
    hide Planned, StatesOf, Taken, Untouched;
    MoveState(plans, n, was, before, txns);
    MoveUntouched(plans, n, before, txns, dirs[plans[n].original]);
    forall q { TakenOneMore(plans, n, q); }
  }

  /** Putting the last plan back, and removing its transaction or not. */
  lemma PutBackOne(plans: seq<Plan>, n: nat, was: Dirs, dirs: Dirs, before: Transactions, txns: Transactions, txns': Transactions)
    requires Planned(plans, before) && Moved(plans, n + 1, was, dirs, txns)
    requires txns' == txns - {plans[n].transaction} || txns' == txns[plans[n].transaction := None]
    ensures plans[n].original !in dirs && HasState(txns, plans[n].transaction, was[plans[n].original])
    ensures Moved(plans, n, was, dirs[plans[n].original := was[plans[n].original]], txns')
  {
    hide Planned, StatesOf, Taken;
    LastState(plans, n, was, before, txns, txns');
    forall q { TakenOneMore(plans, n, q); }
  }

  lemma LastState(plans: seq<Plan>, n: nat, was: Dirs, before: Transactions, txns: Transactions, txns': Transactions)
    requires Planned(plans, before) && n < |plans| && StatesOf(plans, n + 1, was, txns)
    requires txns' == txns - {plans[n].transaction} || txns' == txns[plans[n].transaction := None]
    ensures plans[n].original in was && HasState(txns, plans[n].transaction, was[plans[n].original])
    ensures !Taken(plans, n, plans[n].original) && StatesOf(plans, n, was, txns')
  {
  }

  class Instances {
    var dirs: Dirs
    var txns: Transactions

    /** Undoes the first `n` plans, last one first. */
    method RollBack(plans: seq<Plan>, n: nat, faults: Faults, ghost was: Dirs, ghost before: Transactions) returns (r: Outcome)
      requires Planned(plans, before) && Moved(plans, n, was, dirs, txns) && Emptied(plans, n, n + 1, faults, before, txns)
      modifies this
      ensures r == RolledBack ==> dirs == was && Emptied(plans, 0, n + 1, faults, before, txns)
      ensures r.Stuck? ==> r.at < n && Moved(plans, r.at + 1, was, dirs, txns) && Emptied(plans, r.at + 1, n + 1, faults, before, txns)
      ensures r == RolledBack || r.Stuck?
      ensures r.Stuck? ==> faults.back(r.at)
    {
      hide Planned, Moved, Emptied;
      var j := n;
      while j > 0
        invariant 0 <= j <= n && Moved(plans, j, was, dirs, txns) && Emptied(plans, j, n + 1, faults, before, txns)
        decreases j
      {
        InRange(plans, j, was, dirs, txns);
        var plan := plans[j - 1];
        if faults.back(j - 1) { return Stuck(j - 1); }
        var emptied := if faults.clean(j - 1) then txns[plan.transaction := None] else txns - {plan.transaction};
        PutBackOne(plans, j - 1, was, dirs, before, txns, emptied);
        EmptyOne(plans, j, n + 1, faults, before, txns, emptied);
        dirs, txns := dirs[plan.original := txns[plan.transaction].value], emptied;
        j := j - 1;
      }
      AllBack(plans, was, dirs, txns);
      return RolledBack;
    }

    /** All directories move, each with its content into its own transaction, or
        none does; if even the way back fails, each is in one place or the other. */
    method DetachAll(plans: seq<Plan>, faults: Faults) returns (r: Outcome)
      requires Planned(plans, txns)
      modifies this
      ensures r.Detached? <==> Possible(plans, faults, old(dirs))
      ensures r.Detached? ==>
                && Moved(plans, |plans|, old(dirs), dirs, txns) && Untouched(plans, |plans|, old(txns), txns)
                && |r.transactions| == |plans| && forall i :: 0 <= i < |plans| ==> r.transactions[i] == plans[i].transaction
      ensures r.RolledBack? ==> dirs == old(dirs) && GivenUp(plans, 0, faults, old(txns), txns)
      ensures r.Stuck? ==>
                && faults.back(r.at) && r.at < |plans| && Moved(plans, r.at + 1, old(dirs), dirs, txns)
                && GivenUp(plans, r.at + 1, faults, old(txns), txns)
      ensures (forall k :: !faults.back(k)) ==> !r.Stuck?
    {
      hide Planned, Moved, Untouched, Possible, Emptied;
      NothingMoved(plans, dirs, txns);
      for i := 0 to |plans|
        invariant forall k :: 0 <= k < i ==> !faults.move(k)
        invariant Moved(plans, i, old(dirs), dirs, txns) && Untouched(plans, i, old(txns), txns)
      {
        var plan := plans[i];
        if faults.move(i) || plan.original !in dirs {
          CannotMove(plans, i, faults, old(dirs), dirs, txns);
          ghost var moved := txns;
          if !faults.clean(i) { txns := txns - {plan.transaction}; }
          OthersKeepState(plans, i, old(dirs), dirs, old(txns), moved, txns);
          EmptyFirst(plans, i, faults, old(txns), moved, txns);
          r := RollBack(plans, i, faults, old(dirs), old(txns));
          return;
        }
        MoveOne(plans, i, old(dirs), dirs, old(txns), txns);
        dirs, txns := dirs - {plan.original}, txns[plan.transaction := Some(dirs[plan.original])];
      }
      CouldMove(plans, faults, old(dirs), dirs, txns);
      return Detached(seq(|plans|, i requires 0 <= i < |plans| => plans[i].transaction));
    }
  }

  lemma CannotMove(plans: seq<Plan>, n: nat, faults: Faults, was: Dirs, dirs: Dirs, txns: Transactions)
    requires Moved(plans, n, was, dirs, txns) && n < |plans| && (faults.move(n) || plans[n].original !in dirs)
    ensures !Possible(plans, faults, was)
  {
  }

  lemma CouldMove(plans: seq<Plan>, faults: Faults, was: Dirs, dirs: Dirs, txns: Transactions)
    requires Moved(plans, |plans|, was, dirs, txns) && forall k :: 0 <= k < |plans| ==> !faults.move(k)
    ensures Possible(plans, faults, was)
  {
  }

  lemma InRange(plans: seq<Plan>, n: nat, was: Dirs, dirs: Dirs, txns: Transactions)
    requires Moved(plans, n, was, dirs, txns)
    ensures n <= |plans|
  {
  }

  lemma AllBack(plans: seq<Plan>, was: Dirs, dirs: Dirs, txns: Transactions)
    requires Moved(plans, 0, was, dirs, txns)
    ensures dirs == was
  {
  }

  lemma OthersKeepState(plans: seq<Plan>, n: nat, was: Dirs, dirs: Dirs, before: Transactions, txns: Transactions, txns': Transactions)
    requires Planned(plans, before) && Moved(plans, n, was, dirs, txns) && n < |plans|
    requires txns' == txns || txns' == txns - {plans[n].transaction}
    ensures Moved(plans, n, was, dirs, txns')
  {
  }

  /** Whatever the outcome, no content is lost: it is where it was or in a transaction. */
  lemma NothingIsLost(plans: seq<Plan>, n: nat, was: Dirs, dirs: Dirs, txns: Transactions, p: Path)
    requires Moved(plans, n, was, dirs, txns) && p in was
    ensures (p in dirs && dirs[p] == was[p])
            || exists i :: 0 <= i < n && plans[i].original == p && HasState(txns, plans[i].transaction, was[p])
  {
    if p !in dirs {
      assert Taken(plans, n, p);
      var i :| 0 <= i < n && plans[i].original == p;
      assert HasState(txns, plans[i].transaction, was[p]);
    }
  }
}
