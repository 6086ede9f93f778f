/**
 * `ReactiveList<T>`: a list whose `Add` and `Remove` invoke `OnItemAdded` and
 * `OnItemRemoved`. Handlers are not run; each invocation is appended to `notes`.
 */
module ReactiveLists {
  import opened Seqs

  /** One invocation of one of the list's two events. */
  datatype ListNote<T> = ItemAdded(item: T) | ItemRemoved(item: T)

  /** `List<T>.FindIndex`, with `|s|` for "none". */
  function FirstMatch<T>(s: seq<T>, isMatch: T -> bool): (k: nat)
    ensures k <= |s|
    ensures k < |s| ==> isMatch(s[k])
    ensures forall j :: 0 <= j < k ==> !isMatch(s[j])
  {
    if s == [] then 0
    else if isMatch(s[0]) then 0
    else 1 + FirstMatch(s[1..], isMatch)
  }

  /** The elements satisfying `isMatch`, in list order. */
  function Filter<T>(s: seq<T>, isMatch: T -> bool): (r: seq<T>)
    ensures |r| <= |s|
    ensures forall x | x in r :: x in s && isMatch(x)
    ensures forall x | x in s && isMatch(x) :: x in r
  {
    if s == [] then []
    else
      assert forall x | x in s[1..] :: x in s;
      assert forall x | x in s :: x == s[0] || x in s[1..];
      (if isMatch(s[0]) then [s[0]] else []) + Filter(s[1..], isMatch)
  }

  /** Filtering a list grown at the end: what makes `FindAll`'s loop build `Filter`. */
  lemma {:induction false} FilterSnoc<T>(s: seq<T>, x: T, isMatch: T -> bool)
    ensures Filter(s + [x], isMatch) == Filter(s, isMatch) + (if isMatch(x) then [x] else [])
  {
    if s == [] {
      assert [] + [x] == [x];
    } else {
      assert (s + [x])[0] == s[0] && (s + [x])[1..] == s[1..] + [x];
      FilterSnoc(s[1..], x, isMatch);
    }
  }

  /** One `OnItemRemoved` per element, in order. */
  function Removals<T>(s: seq<T>): seq<ListNote<T>> {
    seq(|s|, i requires 0 <= i < |s| => ItemRemoved(s[i]))
  }

  /**
   * Removing the first element equal to the first match removes exactly that match: an
   * earlier equal element would itself have matched.
   */
  lemma RemoveFirstMatch<T>(s: seq<T>, isMatch: T -> bool)
    requires FirstMatch(s, isMatch) < |s|
    ensures RemoveFirst(s, s[FirstMatch(s, isMatch)]) == RemoveAt(s, FirstMatch(s, isMatch))
  {
    var k := FirstMatch(s, isMatch);
    assert IndexOf(s, s[k]) == k;
  }

  class ReactiveList<T(==)> {
    var list: seq<T>
    /** Every invocation of `OnItemAdded` and `OnItemRemoved`. */
    ghost var notes: seq<ListNote<T>>
    /** `default(T)`, what `Find` returns when nothing matches. */
    const defaultValue: T
    /** Whether `default(T)` is `null`: `T` is a reference type or a nullable value type. */
    const defaultIsNull: bool

    constructor (defaultValue: T, defaultIsNull: bool)
      ensures list == [] && notes == []
      ensures this.defaultValue == defaultValue && this.defaultIsNull == defaultIsNull
    {
      list := [];
      notes := [];
      this.defaultValue := defaultValue;
      this.defaultIsNull := defaultIsNull;
    }

    /** The indexer's getter; `List<T>` throws outside the bounds. */
    function Get(i: int): (x: T)
      reads this
      requires 0 <= i < |list|
      ensures x == list[i] && x in list
    {
      list[i]
    }

    /** The indexer's setter: replaces element `i`, with no notification. */
    method Set(i: int, v: T)
      requires 0 <= i < |list|
      modifies this
      ensures list == old(list)[i := v] && notes == old(notes)
      ensures Count() == old(Count()) && Get(i) == v
      ensures forall j | 0 <= j < Count() && j != i :: Get(j) == old(Get(j))
    {
      list := list[i := v];
    }

    /** `Count`. */
    function Count(): nat
      reads this
    {
      |list|
    }

    /** Appends the value, then notifies unless `silently`. */
    method Add(value: T, silently: bool)
      modifies this
      ensures list == old(list) + [value]
      ensures notes == old(notes) + (if silently then [] else [ItemAdded(value)])
      ensures Count() == old(Count()) + 1 && Get(Count() - 1) == value
    {
      list := list + [value];
      if !silently {
        notes := notes + [ItemAdded(value)];
      }
    }

    /**
     * Removes the first equal element if there is one, and notifies unless `silently`
     * whether or not anything was removed.
     */
    method Remove(value: T, silently: bool)
      modifies this
      ensures list == RemoveFirst(old(list), value)
      ensures notes == old(notes) + (if silently then [] else [ItemRemoved(value)])
      ensures Count() == if value in old(list) then old(Count()) - 1 else old(Count())
    {
      list := RemoveFirst(list, value);
      if !silently {
        notes := notes + [ItemRemoved(value)];
      }
    }

    /** `FindIndex`: the first matching position, or -1. */
    function FindIndex(isMatch: T -> bool): (k: int)
      reads this
      ensures -1 <= k < |list|
      ensures k == -1 <==> forall j :: 0 <= j < |list| ==> !isMatch(list[j])
      ensures k >= 0 ==> isMatch(list[k]) && forall j :: 0 <= j < k ==> !isMatch(list[j])
    {
      var k := FirstMatch(list, isMatch);
      if k < |list| then k else -1
    }

    /** `Find`: the first matching element, or `default(T)`. */
    function Find(isMatch: T -> bool): (x: T)
      reads this
      ensures FindIndex(isMatch) >= 0 ==> x == list[FindIndex(isMatch)]
      ensures FindIndex(isMatch) == -1 ==> x == defaultValue
    {
      var k := FirstMatch(list, isMatch);
      if k < |list| then list[k] else defaultValue
    }

    /**
     * `Remove(match)`: removes what `Find` returns unless that is `null`. So with a
     * value type and no match, the first element equal to `default(T)` is removed, and
     * `OnItemRemoved(default(T))` is invoked.
     */
    method RemoveMatching(isMatch: T -> bool, silently: bool)
      modifies this
      ensures var found := old(Find(isMatch));
        if defaultIsNull && found == defaultValue then unchanged(this)
        else list == RemoveFirst(old(list), found) && notes == old(notes) + (if silently then [] else [ItemRemoved(found)])
    {
      var found := Find(isMatch);
      if !(defaultIsNull && found == defaultValue) {
        Remove(found, silently);
      }
    }

    /** Empties the list; nothing is invoked. */
    method Clear()
      modifies this
      ensures list == [] && notes == old(notes)
      ensures Count() == 0
    {
      list := [];
    }

    /** Removes every element through `Remove`, so one notification per element, in the original order. */
    method RemoveAll()
      modifies this
      ensures list == []
      ensures notes == old(notes) + Removals(old(list))
      ensures Count() == 0
    {
      var temp := list;
      var i := 0;
      while i < |temp|
        invariant i <= |temp|
        invariant list == temp[i..]
        invariant notes == old(notes) + Removals(temp[..i])
      {
        RemoveFirstOfHead(list);
        Remove(temp[i], false);
        assert Removals(temp[..i + 1]) == Removals(temp[..i]) + [ItemRemoved(temp[i])];
        i := i + 1;
      }
      assert temp[..i] == temp;
    }

    /** Clears the caller's buffer, then appends every matching element in list order. */
    method FindAll(isMatch: T -> bool) returns (buffer: seq<T>)
      ensures buffer == Filter(list, isMatch)
    {
      buffer := [];
      var i := 0;
      while i < |list|
        invariant i <= |list|
        invariant buffer == Filter(list[..i], isMatch)
      {
        FilterSnoc(list[..i], list[i], isMatch);
        assert list[..i + 1] == list[..i] + [list[i]];
        if isMatch(list[i]) {
          buffer := buffer + [list[i]];
        }
        i := i + 1;
      }
      assert list[..i] == list;
    }
  }
}
