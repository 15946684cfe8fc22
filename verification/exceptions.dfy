/** Exceptions and exception groups as the exit of a cancel scope sees them. */
module Exceptions {
  import opened Options

  /**
   * `StackCorrupted` is the RuntimeError about mis-nested cancel scopes. A group remembers whether it
   * gives way to its only member (`MultiError.collapse`).
   */
  datatype Exc = Cancelled | StackCorrupted | Failure(id: int) | Group(collapsible: bool, members: seq<Exc>)

  /** The exceptions in a tree of groups, from left to right. */
  function Leaves(e: Exc): seq<Exc>
    decreases e, 1
  {
    if e.Group? then LeavesOf(e.members) else [e]
  }

  function LeavesOf(es: seq<Exc>): seq<Exc>
    decreases es, 0
  {
    if es == [] then [] else Leaves(es[0]) + LeavesOf(es[1..])
  }

  function NotCancelled(es: seq<Exc>): seq<Exc> {
    if es == [] then [] else (if es[0] == Cancelled then [] else [es[0]]) + NotCancelled(es[1..])
  }

  lemma {:induction false} NotCancelledConcat(es: seq<Exc>, fs: seq<Exc>)
    ensures NotCancelled(es + fs) == NotCancelled(es) + NotCancelled(fs)
  {
    if es == [] {
      assert es + fs == fs;
    } else {
      assert (es + fs)[1..] == es[1..] + fs;
      NotCancelledConcat(es[1..], fs);
    }
  }

  /** The second half of `exc.split(Cancelled)`. */
  function Rest(e: Exc): Option<Exc>
    decreases e, 1
  {
    match e
    case Cancelled => None
    case StackCorrupted => Some(e)
    case Failure(_) => Some(e)
    case Group(c, ms) => var rs := RestOf(ms); if rs == [] then None else Some(Group(c, rs))
  }

  function RestOf(es: seq<Exc>): seq<Exc>
    decreases es, 0
  {
    if es == [] then [] else (if Rest(es[0]).Some? then [Rest(es[0]).value] else []) + RestOf(es[1..])
  }

  /** `collapse_exception_group`. */
  function Collapse(e: Exc): Exc
    decreases e, 1
  {
    if !e.Group? then e
    else
      var ms := CollapseAll(e.members);
      if |ms| == 1 && e.collapsible then ms[0] else Group(e.collapsible, ms)
  }

  function CollapseAll(es: seq<Exc>): seq<Exc>
    decreases es, 0
  {
    if es == [] then [] else [Collapse(es[0])] + CollapseAll(es[1..])
  }

  /** No group is left that should have given way to its only member. */
  predicate Collapsed(e: Exc)
    decreases e, 1
  {
    e.Group? ==> !(e.collapsible && |e.members| == 1) && AllCollapsed(e.members)
  }

  predicate AllCollapsed(es: seq<Exc>)
    decreases es, 0
  {
    es == [] || (Collapsed(es[0]) && AllCollapsed(es[1..]))
  }

  /** What `_close` makes of an exception that it may catch: whether it caught anything, and what goes on. */
  function Catch(e: Exc): (bool, Option<Exc>) {
    match e
    case Cancelled => (true, None)
    case StackCorrupted => (false, Some(e))
    case Failure(_) => (false, Some(e))
    case Group(_, _) =>
      var rest := Rest(e);
      (Cancelled in Leaves(e), if rest.Some? then Some(Collapse(rest.value)) else None)
  }

  lemma {:induction false} RestLeaves(e: Exc)
    ensures match Rest(e)
            case Some(r) => Leaves(r) == NotCancelled(Leaves(e)) != []
            case None => NotCancelled(Leaves(e)) == []
    decreases e, 1
  {
    if e.Group? {
      RestOfLeaves(e.members);
    } else {
      assert Leaves(e)[1..] == [];
    }
  }

  lemma {:induction false} RestOfLeaves(es: seq<Exc>)
    ensures LeavesOf(RestOf(es)) == NotCancelled(LeavesOf(es))
    ensures RestOf(es) == [] <==> NotCancelled(LeavesOf(es)) == []
    decreases es, 0
  {
    if es != [] {
      RestLeaves(es[0]);
      RestOfLeaves(es[1..]);
      NotCancelledConcat(Leaves(es[0]), LeavesOf(es[1..]));
      if Rest(es[0]).Some? {
        assert RestOf(es)[1..] == RestOf(es[1..]);
      } else {
        assert RestOf(es) == RestOf(es[1..]);
      }
    }
  }

  lemma {:induction false} CollapseLeaves(e: Exc)
    ensures Leaves(Collapse(e)) == Leaves(e) && Collapsed(Collapse(e))
    decreases e, 1
  {
    if e.Group? {
      CollapseAllLeaves(e.members);
      var ms := CollapseAll(e.members);
      if |ms| == 1 {
        assert ms[1..] == [];
        assert LeavesOf(ms) == Leaves(ms[0]) + LeavesOf([]);
      }
    }
  }

  lemma {:induction false} CollapseAllLeaves(es: seq<Exc>)
    ensures LeavesOf(CollapseAll(es)) == LeavesOf(es) && AllCollapsed(CollapseAll(es))
    decreases es, 0
  {
    if es != [] {
      CollapseLeaves(es[0]);
      CollapseAllLeaves(es[1..]);
      assert CollapseAll(es)[1..] == CollapseAll(es[1..]);
    }
  }

  /**
   * A scope that catches takes out exactly the `Cancelled` exceptions, at any depth, and lets every
   * other exception through, in order.
   */
  lemma CatchTakesExactlyCancelled(e: Exc)
    ensures var (caught, rest) := Catch(e);
      && (caught <==> Cancelled in Leaves(e))
      && (rest.None? <==> NotCancelled(Leaves(e)) == [])
      && (rest.Some? ==> Leaves(rest.value) == NotCancelled(Leaves(e)))
      && (rest.Some? && e.Group? ==> Collapsed(rest.value))
  {
    RestLeaves(e);
    if e.Group? && Rest(e).Some? {
      CollapseLeaves(Rest(e).value);
    }
  }
}
