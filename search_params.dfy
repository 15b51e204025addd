/** The part of the URL Standard's URLSearchParams object (section 6) that the pairing handler uses:
    an ordered list of name-value tuples, set() and the string form. */
module SearchParams {
  import opened Wrappers
  import FormUrlEncoded

  /** No tuple of `list` is named `name`. */
  predicate Fresh(list: seq<(string, string)>, name: string) {
    forall i :: 0 <= i < |list| ==> list[i].0 != name
  }

  /** `list` without any tuple named `name`. */
  function RemoveAll(list: seq<(string, string)>, name: string): (r: seq<(string, string)>)
    ensures Fresh(r, name)
    ensures |r| <= |list|
    ensures forall k :: k != name ==> FormUrlEncoded.Get(r, k) == FormUrlEncoded.Get(list, k)
  {
    if list == [] then []
    else if list[0].0 == name then RemoveAll(list[1..], name)
    else [list[0]] + RemoveAll(list[1..], name)
  }

  /** set(name, value): the first tuple named `name` gets `value` and the others named so are removed;
      when there is none, the tuple is appended. */
  function SetEntry(list: seq<(string, string)>, name: string, value: string): (r: seq<(string, string)>)
    ensures (name, value) in r
    ensures |r| <= |list| + 1
  {
    if list == [] then [(name, value)]
    else if list[0].0 == name then [(name, value)] + RemoveAll(list[1..], name)
    else [list[0]] + SetEntry(list[1..], name, value)
  }

  /** Setting a name the list does not have appends the tuple at the end. */
  lemma {:induction false} SetEntryAppends(list: seq<(string, string)>, name: string, value: string)
    requires Fresh(list, name)
    ensures SetEntry(list, name, value) == list + [(name, value)]
  {
    if list != [] {
      SetEntryAppends(list[1..], name, value);
      assert list == [list[0]] + list[1..];
    }
  }

  /** After set(name, value), get(name) is `value` and every other name reads as before. */
  lemma {:induction false} SetEntryGet(list: seq<(string, string)>, name: string, value: string)
    ensures FormUrlEncoded.Get(SetEntry(list, name, value), name) == Some(value)
    ensures forall k :: k != name ==> FormUrlEncoded.Get(SetEntry(list, name, value), k) == FormUrlEncoded.Get(list, k)
  {
    if list != [] && list[0].0 != name {
      SetEntryGet(list[1..], name, value);
    }
  }

  class URLSearchParams {
    /** The list of name-value tuples, in insertion order. */
    var list: seq<(string, string)>

    constructor ()
      ensures list == []
    {
      list := [];
    }

    method Set(name: string, value: string)
      modifies this
      ensures list == SetEntry(old(list), name, value)
    {
      list := SetEntry(list, name, value);
    }

    /** The string form, which the form-urlencoded parser reads back as the same list. */
    function ToString(): (s: string)
      reads this
      ensures FormUrlEncoded.Parse(s) == Some(list)
    {
      FormUrlEncoded.ParseSerialize(list);
      FormUrlEncoded.Serialize(list)
    }
  }
}
