/**
  Index-addressed edits of an ordered list, as the campaign editor performs
  them on its persona, subreddit and query lists. Elements have no identity
  beyond their position.
 */
module SeqEdit {

  /** `[...list, x]`: one element appended at the end, the prefix untouched. */
  function Append<T>(s: seq<T>, x: T): (r: seq<T>)
    ensures |r| == |s| + 1
    ensures r[..|s|] == s
    ensures r[|s|] == x
  {
    s + [x]
  }

  /**
    `list.filter((_, i) => i !== index)`: every element whose position is not
    `index` is kept, in order. The walk goes from the back so that positions in
    the remaining prefix are positions in the original list.
   */
  function RemoveAt<T>(s: seq<T>, index: int): (r: seq<T>)
    ensures 0 <= index < |s| ==> |r| == |s| - 1
    ensures 0 <= index < |s| ==> forall j :: 0 <= j < index ==> r[j] == s[j]
    ensures 0 <= index < |s| ==> forall j :: index <= j < |r| ==> r[j] == s[j + 1]
    ensures !(0 <= index < |s|) ==> r == s
    decreases |s|
  {
    if |s| == 0 then []
    else
      var last := |s| - 1;
      var kept := RemoveAt(s[..last], index);
      if last == index then kept
      else
        assert !(0 <= index < last) ==> kept + [s[last]] == s[..last] + [s[last]] == s;
        kept + [s[last]]
  }

  /** `copy[index] = value` on a copy of the list, for an index inside it. */
  function ReplaceAt<T>(s: seq<T>, index: int, value: T): (r: seq<T>)
    requires 0 <= index < |s|
    ensures |r| == |s|
    ensures r[index] == value
    ensures forall j :: 0 <= j < |s| && j != index ==> r[j] == s[j]
  {
    s[index := value]
  }

  /** Removing the element just appended gives back the original list. */
  lemma RemoveUndoesAppend<T>(s: seq<T>, x: T)
    ensures RemoveAt(Append(s, x), |s|) == s
  {
    var r := RemoveAt(Append(s, x), |s|);
    assert |r| == |s|;
    forall j | 0 <= j < |s|
      ensures r[j] == s[j]
    {
      assert r[j] == Append(s, x)[j];
    }
  }

  /** The filter agrees with cutting the element out of the list. */
  lemma RemoveAtIsSplice<T>(s: seq<T>, index: int)
    requires 0 <= index < |s|
    ensures RemoveAt(s, index) == s[..index] + s[index + 1..]
  {
    var r := RemoveAt(s, index);
    var spliced := s[..index] + s[index + 1..];
    assert |r| == |spliced|;
    forall j | 0 <= j < |r|
      ensures r[j] == spliced[j]
    {
      if j < index {
        assert spliced[j] == s[j];
      } else {
        assert spliced[j] == s[j + 1];
      }
    }
  }

  /** Writing back the old value undoes a replacement. */
  lemma ReplaceRestores<T>(s: seq<T>, index: int, value: T)
    requires 0 <= index < |s|
    ensures ReplaceAt(ReplaceAt(s, index, value), index, s[index]) == s
  {
  }

  /** A second replacement at the same position wins over the first. */
  lemma ReplaceOverwrites<T>(s: seq<T>, index: int, first: T, second: T)
    requires 0 <= index < |s|
    ensures ReplaceAt(ReplaceAt(s, index, first), index, second) == ReplaceAt(s, index, second)
  {
  }
}
