/** A value that may be missing, and the first position of a list where something holds. */
module Options {
  datatype Option<+T> = None | Some(value: T)

  /** As `Array.find` searches: the first index that satisfies `p`, or the length. */
  function First<T>(s: seq<T>, p: T -> bool): (i: nat)
    ensures i <= |s|
    ensures i < |s| ==> p(s[i])
    ensures forall j :: 0 <= j < i ==> !p(s[j])
  {
    if s == [] then 0
    else
      var init := First(s[..|s| - 1], p);
      if init < |s| - 1 || p(s[|s| - 1]) then init else |s|
  }

  /** As `reverse().find` searches: one past the last index that satisfies `p`, or zero. */
  function AfterLast<T>(s: seq<T>, p: T -> bool): (i: nat)
    ensures i <= |s|
    ensures i > 0 ==> p(s[i - 1])
    ensures forall j :: i <= j < |s| ==> !p(s[j])
  {
    if s == [] then 0
    else if p(s[|s| - 1]) then |s|
    else AfterLast(s[..|s| - 1], p)
  }
}
