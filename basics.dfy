/** Option and Result wrappers, and the first-match lookup every deploy script uses. */
module Basics {

  datatype Option<T> = None | Some(value: T)

  datatype Result<T, E> = Ok(value: T) | Err(error: E)

  /** The position of the first element of `xs` that satisfies `p`, or None when no element does:
      the `next((x for x in xs if ...), None)` idiom of the deploy scripts, as an index. */
  function FindFirst<T>(xs: seq<T>, p: T -> bool): (r: Option<nat>)
    ensures r.Some? ==> r.value < |xs| && p(xs[r.value])
    ensures r.Some? ==> forall j :: 0 <= j < r.value ==> !p(xs[j])
    ensures r.None? <==> forall j :: 0 <= j < |xs| ==> !p(xs[j])
  {
    if xs == [] then None
    else if p(xs[0]) then Some(0)
    else match FindFirst(xs[1..], p)
      case None => None
      case Some(i) => Some(i + 1)
  }

  /** The first-match conditions pin the index down: whatever index meets them is the one FindFirst returns. */
  lemma FindFirstIsFirst<T>(xs: seq<T>, p: T -> bool, i: nat)
    requires i < |xs| && p(xs[i])
    requires forall j :: 0 <= j < i ==> !p(xs[j])
    ensures FindFirst(xs, p) == Some(i)
  {
  }

  /** The first element whose name (as given by `name`) equals `target` exactly: case-sensitive
      string equality, no normalisation. */
  function FindByName<T>(xs: seq<T>, name: T -> string, target: string): (r: Option<nat>)
    ensures r.Some? ==> r.value < |xs| && name(xs[r.value]) == target
    ensures r.Some? ==> forall j :: 0 <= j < r.value ==> name(xs[j]) != target
    ensures r.None? <==> forall j :: 0 <= j < |xs| ==> name(xs[j]) != target
  {
    FindFirst(xs, x => name(x) == target)
  }

  /** Appending an element does not disturb a match already present, and when there was none
      the appended element is found if it carries the name. */
  lemma {:induction false} FindByNameAppend<T>(xs: seq<T>, name: T -> string, target: string, x: T)
    ensures FindByName(xs, name, target).Some? ==> FindByName(xs + [x], name, target) == FindByName(xs, name, target)
    ensures FindByName(xs, name, target).None? && name(x) == target ==> FindByName(xs + [x], name, target) == Some(|xs|)
    ensures FindByName(xs, name, target).None? && name(x) != target ==> FindByName(xs + [x], name, target).None?
  {
    var ys := xs + [x];
    var p := (y: T) => name(y) == target;
    match FindByName(xs, name, target)
    case Some(i) =>
      assert ys[i] == xs[i];
      forall j | 0 <= j < i ensures !p(ys[j]) {
        assert ys[j] == xs[j];
      }
      FindFirstIsFirst(ys, p, i);
    case None =>
      forall j | 0 <= j < |xs| ensures !p(ys[j]) {
        assert ys[j] == xs[j];
      }
      if name(x) == target {
        FindFirstIsFirst(ys, p, |xs|);
      } else {
        assert forall j :: 0 <= j < |ys| ==> !p(ys[j]);
      }
  }
}
